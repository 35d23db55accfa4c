# medium-rank-booster in Dafny

A model of the core of medium-rank-booster, a small Node.js service that
pushes URLs to search-engine indexing APIs. The model covers:

- **The indexer** (`Indexing.Indexer`):
  - It picks its Google credential source once, when it is constructed.
  - `submitUrl` turns each URL into one submission record with the services
    `google`, `indexnow` and `ping`.
  - Each record goes to the front of an in-memory history that is never
    truncated. Only the newest 5000 entries are written to the history file.
  - `generateBridgePage` builds a bridge page (article cards, video cards and
    a schema.org ItemList) and a one-entry sitemap in the sitemaps.org 0.9
    format, then submits the page's own URL.
- **The server** (`Server.Server`):
  - the monitored-feed list, with its add-if-absent rule;
  - the feed check, with its strict 24-hour window and its item mapping;
  - the hourly loop over all feeds;
  - the Googlebot detector's newest-first visit buffer, capped at 50;
  - the input normalisation of `/api/medium-boost`.
- **The command line** (`Cli`): `submit`, `boost` and help, with their usage
  errors.

The JavaScript runtime pieces the code relies on are modelled in `Js`:
JSON values and files, `includes`, `split('/').pop()`, `replace(/-/g, ' ')`,
`toLowerCase`, `||` on strings, and `filter`.

The outside world is a parameter. The network answers, the clock and the
WHATWG URL parser arrive as a `World` value. A feed fetch arrives as a
`Result`. Whether a file exists and parses arrives as a `StoredFile`. What
the code writes to disk is kept in ghost fields: the history file, the
bridge page, the sitemap and the feeds file. So are the outbound requests.

Some behaviour of the code is easy to miss; the model follows the code:

- **Bridge-page items must be strings.** `generateBridgePage` calls
  `includes` on every item (src/indexer.js:134). Any item that is not a
  string (and not an array, `null` or `undefined`, which the model does not
  distinguish) throws a TypeError (message `u.includes is not a function`)
  before anything is written. The server passes
  `{url, title, snippet}` objects (src/server.js:64-68, src/server.js:195).
  So a feed check with recent items ends in a logged error, and so does a
  `/api/medium-boost` call with a non-empty array (an HTTP 500). Only the
  command line, which passes strings, builds a page with content. The lemmas
  `Server.ArticlesAreNotStrings` and `Server.BoostBuildsOnlyEmptyPages` prove
  this.
- **The article and video classes overlap.** A URL can get both cards
  (`BridgePage.ArticleAndShortLink`). Article cards show only the link and a
  title taken from the URL, with no snippet.
- **There is one Google credential and no rotation.** When the environment
  JSON is set but does not parse, there is no credential, even if the key
  file exists.
- **INDEXNOW_KEY is read on every submission; the other settings once.**
  SITE_URL, GOOGLE_KEY_FILE and GOOGLE_KEY_JSON are read by the constructor
  (src/indexer.js:12-13, src/indexer.js:26), so they are the indexer's
  `Env`. INDEXNOW_KEY is read by each `submitUrl` (src/indexer.js:93), so it
  is part of that call's `World`. The server builds its indexer
  (src/server.js:16) before it loads `.env.local` (src/server.js:20): a
  setting placed only in `.env.local` reaches the IndexNow key but never the
  site URL or the Google credential.
- **The ping step sends nothing.** It records `{status: 'simulated', count: 2}`.

## Model

| member | source | states |
|---|---|---|
| Js.TruthyString | src/indexer.js:26 | a string that may be undefined is truthy iff it is defined and non-empty |
| Js.Or | src/indexer.js:12-13 | `v || fallback` on a string that may be undefined: `v` when it is truthy, otherwise the fallback |
| Js.LoadList | src/indexer.js:50-58 | a missing or unparseable JSON file loads as the empty list; a parsed one loads as its value |
| Js.LastSegment | src/indexer.js:180 | `split('/').pop()` is the longest suffix without '/', preceded by '/' whenever it is shorter than the string |
| Js.LastSegmentAfterSlash | src/indexer.js:193 | whatever precedes the last '/' does not change the last segment |
| Js.DashesToSpaces | src/indexer.js:180 | every '-' becomes a space, every other character is kept, and the length is unchanged |
| Js.ToLower | src/server.js:138 | every ASCII capital is lowered and no capital remains |
| Js.ToLowerAppend | src/server.js:138 | lowering works piece by piece: the lower-case form of a concatenation is the concatenation of the lower-case forms |
| Js.Includes | src/indexer.js:134 | `s.includes(sub)`: `sub` occurs in `s` at some index from 0 to `|s| - |sub|`, so the empty string is included in every string |
| Js.Filter | src/indexer.js:134-135 | the filter keeps exactly the elements that pass, and only elements of the input |
| Js.FilterAppend | src/indexer.js:134-135 | filtering distributes over concatenation, so input order is kept |
| BridgePage.IsArticleUrl | src/indexer.js:134 | an input is an article input iff it contains `medium.com` |
| BridgePage.IsVideoUrl | src/indexer.js:135 | an input is a video input iff it contains `youtube.com` or `youtu.be` |
| BridgePage.ArticleTitle | src/indexer.js:180-184 | the card title is the last path segment with every '-' replaced by a space, or 'Read Article' when that is empty |
| BridgePage.ArticleTitleShape | src/indexer.js:180-184 | the title is never empty and has no '-' and no '/'; when the last segment is non-empty, the title is that segment with each dash turned into a space, otherwise 'Read Article' |
| BridgePage.TitleOfLastSegment | src/indexer.js:180-184 | the title of a URL ending in "/seg" is seg with its dashes turned into spaces, whatever comes before |
| BridgePage.ArticleCards | src/indexer.js:179-187 | one article card per input, in input order, each with the input as its link and its title |
| BridgePage.ArticleCardsSnoc | src/indexer.js:179-187 | one more article input adds its card at the end |
| BridgePage.VideoId | src/indexer.js:191-195 | a URL containing `youtu.be` takes its last path segment as the id; any other takes its `v` query parameter, and the empty string when there is none or the URL does not parse |
| BridgePage.Thumbnail | src/indexer.js:198 | the thumbnail is `https://img.youtube.com/vi/<id>/mqdefault.jpg` |
| BridgePage.VideoCardFor | src/indexer.js:191-206 | one input gives one video card, linking to it with the thumbnail of its id, when its video id is non-empty, and no card otherwise |
| BridgePage.VideoCards | src/indexer.js:190-207 | at most one card per input; every card is a video card linking to one of the inputs |
| BridgePage.VideoCardsAppend | src/indexer.js:190-207 | video cards of a concatenation are the concatenation of the video cards, so input order is kept |
| BridgePage.VideoCardOfOne | src/indexer.js:191-206 | an input gets a video card iff its video id is non-empty, and the thumbnail embeds that id |
| BridgePage.Cards | src/indexer.js:134-207 | the page's cards are the article cards of the article inputs, in order, followed by the video cards of the video inputs, in order |
| BridgePage.CardsLayout | src/indexer.js:134-207 | the page starts with one article card per `medium.com` input in order; every article card comes before every video card; every video card links to a `youtube.com` or `youtu.be` input |
| BridgePage.ArticleAndShortLink | src/indexer.js:134-207 | a `medium.com` URL that also contains `youtu.be` gets an article card and then a video card whose id is its last segment |
| BridgePage.ItemList | src/indexer.js:162-167 | the ItemList lists every input, unclassified ones included, in order, at positions 1..n |
| BridgePage.BridgeUrl | src/indexer.js:217 | the bridge URL extends the site URL |
| BridgePage.BridgeSitemap | src/indexer.js:218-227 | the sitemap, in the sitemaps.org 0.9 namespace, has exactly one entry: the bridge URL, stamped with the given time, changing daily, at priority 1.0 |
| BridgePage.OneArticleThenOneVideo | src/indexer.js:134-207 | an article input followed by a video input with an id give one article card, then one video card, and the list items 1 and 2 |
| BridgePage.ShortLinkVideoId | src/indexer.js:193 | the video id of a short link ending in "/id" is id |
| Indexing.ConfigOf | src/indexer.js:11-16 | SITE_URL and GOOGLE_KEY_FILE are taken as given when set and non-empty, and otherwise fall back to the default site and `service_account.json` |
| Indexing.SelectAuth | src/indexer.js:26-47 | with GOOGLE_KEY_JSON set, a credential exists iff the JSON parses and is built from it; otherwise a credential exists iff the key file exists, and it names that file |
| Indexing.KeyFileIgnoredWhenJsonSet | src/indexer.js:26-39 | with GOOGLE_KEY_JSON set, whether the key file exists makes no difference |
| Indexing.IndexNowKey | src/indexer.js:93 | the IndexNow key is INDEXNOW_KEY as read during the submission, or `indexnow-key` when that is unset or empty |
| Indexing.KeyLocation | src/indexer.js:94 | the key location is `<siteUrl>/<key>.txt` |
| Indexing.GoogleOutcome | src/indexer.js:73-87 | google is skipped with 'No key file' iff there is no credential; otherwise it records the error of getting the client, or else the publish response or its error message |
| Indexing.IndexNowOutcome | src/indexer.js:92-107 | indexnow records status 200 iff the URL parses and the POST resolves; otherwise it records the error |
| Indexing.Submission | src/indexer.js:65-119 | a record has exactly the keys google, indexnow and ping, its URL and timestamp, and ping simulated with count 2 |
| Indexing.IndexNowFailureIsLocal | src/indexer.js:92-107 | what happens to IndexNow changes no other part of the record |
| Indexing.Requests | src/indexer.js:73-103 | a publish request is sent iff there is a credential and getting the client succeeded; an IndexNow request is sent iff the URL parses; the IndexNow request carries the host, the key, `siteUrl/key.txt` and the one URL |
| Indexing.Retained | src/indexer.js:60-63 | the persisted history is the first min(5000, n) entries, in order |
| Indexing.AfterSubmissions | src/indexer.js:121 | the in-memory history after several submissions, each one `unshift`ed in turn |
| Indexing.HistoryAfterSubmissions | src/indexer.js:121 | after any run of submissions the newest is first, nothing is dropped from memory, and the older history follows unchanged |
| Indexing.PersistedAfterSubmissions | src/indexer.js:121-122 | after any non-empty run of submissions, the persisted history holds at most 5000 entries with the newest first |
| Indexing.ReloadAfterSubmissions | src/indexer.js:50-63 | after any run of submissions, a restarted indexer loads back the first min(5000, history length) entries of the in-memory history in order, the latest submissions first, and the whole history when it is shorter than 5000 |
| Indexing.RenderCards | src/indexer.js:179-207 | the two card loops produce the cards of the page |
| Indexing.RenderArticleCards | src/indexer.js:179-187 | the article loop produces the article cards |
| Indexing.RenderVideoCards | src/indexer.js:190-207 | the video loop produces the video cards |
| Indexing.Indexer.constructor | src/indexer.js:9-58 | the configuration, the loaded history and the selected credential |
| Indexing.Indexer.SubmitUrl | src/indexer.js:65-125 | returns the submission record; the history becomes the record followed by the old history; the file holds the retained prefix; exactly the requests above are sent |
| Indexing.Indexer.GenerateBridgePage | src/indexer.js:130-231 | a non-string item throws a TypeError and changes nothing; otherwise the page, the sitemap and one new history entry for the bridge URL |
| Server.AddIfAbsent | src/server.js:162-166 | an absent URL is appended at the end; a present one leaves the list unchanged |
| Server.AddIfAbsentKeepsNoDuplicates | src/server.js:162-166 | adding never introduces a duplicate |
| Server.AddIfAbsentOccurrences | src/server.js:162-166 | an added URL occurs once if it was absent, as often as before otherwise; adding twice is adding once |
| Server.IsRecent | src/server.js:56-58 | an item is recent iff it has a valid date and `now - date` is below 24 hours in milliseconds; an invalid date compares false |
| Server.RecentItems | src/server.js:55-59 | keeps exactly the items dated less than 24 hours before now, and only those |
| Server.RecencyBoundary | src/server.js:58 | an item exactly 24 hours old is dropped, one a millisecond younger is kept, and a future-dated one is kept |
| Server.NothingRecentWhenAllOld | src/server.js:55-61 | when no item is recent, the recent list is empty |
| Server.Snippet | src/server.js:67 | the snippet is contentSnippet if truthy, else content if truthy, else '' |
| Server.ArticleObject | src/server.js:64-68 | the `{url, title, snippet}` object literal: exactly those three keys with the given values |
| Server.ArticleOf | src/server.js:64-68 | an item maps to an object with exactly url, title and snippet |
| Server.Articles | src/server.js:64-68 | the mapping keeps length and order |
| Server.ArticlesAreNotStrings | src/server.js:64-69 | the mapped articles are all strings iff there are none, so a non-empty list makes the bridge page throw |
| Server.CheckOutcomeOf | src/server.js:46-82 | an unreadable feed is logged; no recent items means nothing is boosted; the check never ends with a submitted page |
| Server.BridgeCallOf | src/server.js:61-69 | a readable feed with recent items hands its mapped articles to `generateBridgePage` once; any other feed hands nothing |
| Server.CronBridgeCalls | src/server.js:85-90 | one hourly cycle hands `generateBridgePage` the bridge call of each monitored feed, in feed order |
| Server.IsGooglebot | src/server.js:136-138 | a request is a Googlebot visit iff its User-Agent, or '' when absent, lower-cased contains `googlebot` |
| Server.VisitOf | src/server.js:139-144 | a visit records the time, the IP, the User-Agent ('' when absent) and the path |
| Server.PushVisit | src/server.js:146-148 | the new visit goes first; the oldest is dropped only when the buffer was full; a buffer of at most 50 stays at most 50 |
| Server.VisitsAfter | src/server.js:136-151 | the visit buffer after a run of requests, each passed through the Googlebot detector in turn |
| Server.VisitsStayBounded | src/server.js:136-151 | over any run of requests the buffer never exceeds 50 and never shrinks |
| Server.GooglebotDetected | src/server.js:137-138 | a User-Agent holding "googlebot" spelt in any mix of ASCII cases is detected |
| Server.CapitalisedMarkerDetected | src/server.js:137-138 | a User-Agent holding "Googlebot", as crawlers send it, is detected |
| Server.BoostArticles | src/server.js:191-195 | a missing or non-array value is refused; each string becomes `{url, title: '', snippet: ''}`, other elements pass through, length and order kept |
| Server.BoostBuildsOnlyEmptyPages | src/server.js:195-198 | the normalised list is all strings iff it is empty |
| Server.Server.constructor | src/server.js:27-37 | the feed list is the feeds file's list, or empty when it is missing or unparseable |
| Server.Server.AddFeed | src/server.js:159-168 | a falsy URL gives 400 and changes nothing; otherwise add-if-absent, and only a new URL is saved and checked; no duplicates are introduced |
| Server.Server.CheckFeed | src/server.js:46-82 | the outcome is as stated; the bridge page is asked for once with the mapped recent items iff there are any; since those are objects, nothing is written or sent: history, history file, requests, page and sitemap are unchanged |
| Server.Server.RunCronCycle | src/server.js:85-90 | every monitored feed is checked in order, and each outcome is that feed's own; the bridge page is asked for with each checked feed's recent items, in feed order; nothing is written or sent |
| Server.Server.OnRequest | src/server.js:136-151 | a request is recorded iff its lower-cased User-Agent contains googlebot; the buffer stays within 50 |
| Server.Server.MediumBoost | src/server.js:189-207 | a non-array gives 400 and a non-empty array gives 500 with the TypeError message, both writing and sending nothing; an empty array writes an empty page and the bridge sitemap, submits the bridge URL, saves the history and sends its requests |
| Cli.Dispatch | src/cli.js:6-35 | submit iff the first argument is `submit` and a non-empty URL follows; boost iff it is `boost` and at least one URL follows; each usage error exits 1; anything else is help |
| Cli.BoostInputsAreStrings | src/cli.js:21-27 | the command line always passes strings to the bridge page |
| Cli.Run | src/cli.js:10-35 | submit records, saves and sends the submission of the second argument and writes no page; boost writes the page and sitemap from the remaining arguments in order, then records, saves and sends the bridge URL's submission; usage errors and help leave the indexer unchanged |

## Left out

- Outbound HTTP (the Google client, `axios.post`, the RSS fetch) is not performed. Its answers are inputs in `World` or in a `Result`.
- File I/O is not performed. Whether a file exists and parses is an input, and written files are ghost fields.
- The clock is an input: one instant per operation, so a submission's timestamp and the sitemap's lastmod are the same text.
- Loading `.env` files (dotenv) is not modelled. The constructor's environment is the indexer's `Env`, and INDEXNOW_KEY during each call is part of that call's `World`.
- The WHATWG URL parser (`hostname` and `searchParams.get('v')`) is an input function.
- Literal HTML, CSS and XML text, the page title's locale date and the missing escaping are not modelled. The page is a sequence of cards plus the ItemList.
- `EventEmitter.emit('submit:complete')` and all console output are not modelled. They change no state the model tracks.
- Express wiring is not modelled: CORS, body parsing, cookies, JWT, login and logout, static files, and the routes `/api/visits`, `/api/feeds`, `/api/history` and `/api/submit`. The last four only read state or call `submitUrl`.
- The order of middleware is not modelled. Static files and unauthenticated `/api` requests are answered before the Googlebot detector runs, so the model does not say which requests reach it.
- The cron schedule and overlapping runs are not modelled. That includes the unawaited check started by an add and a feed added during a cycle. This is asynchronous scheduling.
- The Medium-hint branch in the feed check's error handler is not modelled. It only logs.
- The constructor's `config` argument is not modelled. No caller passes one.
- A history or feeds file that parses to something other than an array is not modelled.
- Indexing.Indexer.GenerateBridgePage: every non-string item gives the same TypeError message. JavaScript gives a different message for `null` and `undefined`. An array item has its own `includes` and would not throw, and this is not modelled.
- Server.Server.AddFeed: the `url` field is taken to be a string or absent. A truthy non-string value is not modelled.
- Server.IsGooglebot: lower-casing covers ASCII letters only. For the marker "googlebot" this gives the same answer as full Unicode lower-casing.
- The ping step's `catch` branch is not modelled. Nothing in its `try` can throw.
- Server.Server.RunCronCycle: one `now` serves the whole cycle. The feed list is read once, because nothing runs concurrently in the model.
