# comic-bot, modelled in Dafny

comic-bot is a scheduled Cloudflare Worker. It watches web comics and posts each new
page to Discord webhooks. On every run it does the following:

1. It reads a comic index (a JSON array) from the key-value store and validates each
   item against the comic configuration schema.
2. It processes every valid comic concurrently:
   - fetch the comic's RSS/Atom feed and take its latest item;
   - fetch the page that item links to and stream it through an HTML rewriter, which
     captures the comic image and an optional alt text;
   - read from the store the date each webhook was last notified;
   - post one update to each webhook that is behind the feed;
   - record the current date for each webhook that accepted the post.
3. Once the index has been read and found to be an array, every failure is collected
   into one error collection: an index item that does not validate, a feed or page that
   does not come back or does not parse, a webhook that refuses the post. An index that
   is not an array is thrown as a plain error before any item is parsed, and is not
   collected.

The model has one Dafny module per source file:
- `ErrorCollectors`: the error set.
- `Urls`: URL normalisation.
- `CacheKeys`: cache keys.
- `ComicErrors`: the error classes.
- `Schema`: the schemas.
- `Feeds`: the feed.
- `Pages`: the page scan.
- `Notifiers`: the notifier.
- `Comic`: one comic's pipeline.
- `Comics`: the whole run.

Shared helper modules:
- `Wrappers`: `Option`, `Result`.
- `Strings`: `startsWith`, `endsWith`, decimal rendering.
- `Http`: responses, and the effects on the outside world.

Code that updates objects in place is modelled as Dafny classes:
- `ErrorCollector`, a `Set` subclass;
- `Feed`, with its memoised `#latest` and `#dateUpdated` fields;
- `Comics`, a set of comics together with an error collector.

Loops are modelled as methods with loop invariants:
- the `for` loops of the collector;
- the rewriter handler of `Page.fromResponse`;
- the index loop of `Comics.fromIndex`;
- the `Promise.allSettled` map over the comics in `Comics.process`;
- the deliveries of `Notifier.sendUpdates`.

`normalizeUrl` is a method with its two guarded reassignments of `result`.

Each of these methods is proved equal to a specification function. The properties are
proved as lemmas about those functions.

Outside effects are threaded through the model explicitly:
- The key-value store is a value `map<string, int>`: (feed, webhook) key to timestamp.
- The network is seen through functions passed in, and so is the clock:
  - `get(url)` and `post(url)` give the response a fetch would return;
  - `now` is the single time every cache write records.
- Each pipeline returns a `Run`. A run holds:
  - how the promise settled;
  - the new store;
  - the next free error identity;
  - the effects caused, in order: `Get`, `Post`, `ReadCache`, `Log`.
- Error objects are values `Other(id, info)`. The identity `id` is handed out in
  increasing order, so two thrown objects with the same message stay distinct in a `Set`.

## Model

| member | source | states |
|---|---|---|
| ErrorCollectors.ErrorCollector.Insert | src/utils/ErrorCollector.ts:14-15 | `super.add`: the set gains the value at the end if it was absent and is otherwise unchanged; it stays duplicate-free |
| ErrorCollectors.Inserted | src/utils/ErrorCollector.ts:14-15 | Set insertion keeps the old members first, holds exactly the old members plus the value, and grows by one only for a new value |
| ErrorCollectors.ErrorCollector.Add | src/utils/ErrorCollector.ts:13-17 | `add(e)` inserts each element of a non-string iterable one by one, and anything else as one value; the set stays duplicate-free |
| ErrorCollectors.ErrorCollector.AddSettled | src/utils/ErrorCollector.ts:23-28 | `addSettled` adds the reason of every rejected outcome, in order, and nothing for fulfilled ones |
| ErrorCollectors.ErrorCollector.AssertEmpty | src/utils/ErrorCollector.ts:34-36 | throws exactly when the set is non-empty, and what it throws is the array of the collected items in insertion order |
| ErrorCollectors.IsNonStringIterable | src/utils/ErrorCollector.ts:5-10 | arrays and sets are flattened by `add`; strings and error objects are not |
| ErrorCollectors.Added | src/utils/ErrorCollector.ts:13-17 | the reference definition of the set after `add(e)`: each element of an iterable inserted in order, or the value itself; its properties are the lemmas below |
| ErrorCollectors.AddedAll | src/utils/ErrorCollector.ts:23-28 | the set after `add` of each value in order, as the `for` of `addSettled` does |
| ErrorCollectors.Rejections | src/utils/ErrorCollector.ts:24 | the reasons of the rejected outcomes, in order; `RejectionsCount` states what it keeps |
| ErrorCollectors.FlattenOnce | src/utils/ErrorCollector.ts:13-17 | what a sequence of `add` calls hands to `super.add`: one level of every iterable, in order |
| ErrorCollectors.InsertedAllContents | src/utils/ErrorCollector.ts:15 | inserting a sequence keeps the set duplicate-free, keeps the old members as a prefix, holds exactly the old members and the new elements, and grows by at most the number of elements |
| ErrorCollectors.InsertedAllFresh | src/utils/ErrorCollector.ts:15 | pairwise distinct new elements are appended in their order |
| ErrorCollectors.InsertedAllPresent | src/utils/ErrorCollector.ts:15 | inserting elements already present changes nothing |
| ErrorCollectors.AddSingle | src/utils/ErrorCollector.ts:14 | a string or an error object is stored as itself: the set is unchanged if it was present, and gains exactly it otherwise |
| ErrorCollectors.StringNotSplit | src/utils/ErrorCollector.ts:5-10 | a string is not iterated: after adding it the set holds the string, and none of its single characters |
| ErrorCollectors.AddIterable | src/utils/ErrorCollector.ts:13-17 | adding an array or set flattens exactly one level: the members afterwards are the old ones and the iterable's elements |
| ErrorCollectors.AddIdempotent | src/utils/ErrorCollector.ts:13-17 | adding the same value twice equals adding it once |
| ErrorCollectors.FlattenOnceAppend | src/utils/ErrorCollector.ts:13-17 | flattening one level distributes over concatenation |
| ErrorCollectors.AddedAllFresh | src/utils/ErrorCollector.ts:23-28 | when the flattened reasons are new and distinct, `addSettled` appends them, flattened, in order |
| ErrorCollectors.AddedAllBound | src/utils/ErrorCollector.ts:23-28 | `addSettled` never removes members and grows the set by at most the number of flattened reasons |
| ErrorCollectors.FlattenOnceOfSingles | src/utils/ErrorCollector.ts:13-17 | reasons that are not iterables flatten to themselves |
| ErrorCollectors.RejectionsCount | src/utils/ErrorCollector.ts:24 | the `filter` keeps at most one reason per outcome, nothing when all are fulfilled, and exactly the reasons of rejected outcomes |
| ErrorCollectors.AddSettledAllFulfilled | src/utils/ErrorCollector.ts:23-28 | a batch with no rejection leaves the collection unchanged |
| ErrorCollectors.AddSettledSinglesBound | src/utils/ErrorCollector.ts:23-28 | with non-iterable reasons, the growth is bounded by the number of rejections |
| ErrorCollectors.FreshIdsNoDup | src/comic/Comics.ts:53-54 | error objects created after those already collected, with increasing identities, are distinct from each other and from them |
| Urls.NormalizeUrl | src/utils/normalizeUrl.ts:1-15 | the two guarded reassignments compute `Normalized`, case by case on how the input starts |
| Urls.Normalized | src/utils/normalizeUrl.ts:1-15 | the reference definition of the result: a `//` input gets the protocol, then the origin if it still starts with `/`; a `/` input gets the origin; anything else is unchanged |
| Urls.ProtocolRelative | src/utils/normalizeUrl.ts:6-8 | a `//host` input gets the reference's protocol and, since the protocol does not start with `/`, no origin |
| Urls.RootRelative | src/utils/normalizeUrl.ts:10-12 | a `/path` input (not `//`) gets the reference's origin |
| Urls.NotRelative | src/utils/normalizeUrl.ts:6-12 | an input not starting with `/` is returned unchanged |
| Urls.EndsWithInput | src/utils/normalizeUrl.ts:1-15 | the result always ends with the original input: only a prefix is ever added |
| Urls.Idempotent | src/utils/normalizeUrl.ts:1-15 | normalising a normalised URL changes nothing, for a reference whose parts do not start with `/` |
| CacheKeys.BuildCacheKey | src/utils/buildCacheKey.ts:8-10 | the key is the feed URL, then a vertical bar, then exactly the webhook URL |
| CacheKeys.KeyIgnoresOtherFields | src/utils/buildCacheKey.ts:8-10 | the key depends only on the feed URL of the comic |
| CacheKeys.DistinctWebhooksDistinctKeys | src/utils/buildCacheKey.ts:8-10 | within one comic, distinct webhooks have distinct keys |
| CacheKeys.KeysInjectiveWithoutBar | src/utils/buildCacheKey.ts:8-10 | when no feed URL contains a vertical bar, equal keys mean the same feed and the same webhook |
| CacheKeys.KeysCollideWithBar | src/utils/buildCacheKey.ts:8-10 | a feed URL containing a vertical bar lets two different (feed, webhook) pairs share a key |
| ComicErrors.ComicError | src/comic/ComicError.ts:3-7 | the message is the comic's name, `": "`, then the detail unchanged; the class is kept |
| ComicErrors.OnlyNameMatters | src/comic/ComicError.ts:5 | two configurations with the same name give the same error |
| ComicErrors.DistinctNamesDistinctMessages | src/comic/ComicError.ts:5 | for one detail, distinct comic names give distinct messages |
| ComicErrors.FormatIsAmbiguous | src/comic/ComicError.ts:5 | a name containing `": "` makes the message ambiguous between (name, detail) pairs |
| Http.ReceivedDetailFormat | src/comic/Feed.ts:47-52 | the non-ok response detail starts with `received ` and ends with `": "` followed by the body as received |
| Http.ReceivedDetail | src/comic/Feed.ts:50 | the detail `received STATUS when retrieving URL: BODY` shared by the feed and page errors (also src/comic/Page.ts:63) |
| Schema.ParseComicData | src/schema.ts:7-13 | parsing succeeds exactly for objects whose fields meet the schema; the parsed record meets the same constraints and, written back, is the item with unknown keys stripped |
| Schema.IsComicData | src/schema.ts:7-13 | the object shape `comicDataSchema` accepts: an optional non-empty `altSelector`, non-empty `imageSelector` and `name`, a URL `rssUrl` and an array of URLs `webhookUrls` |
| Schema.Stripped | src/schema.ts:7 | a `z.object` parse drops every key the schema does not name |
| Schema.ParseToJson | src/schema.ts:7-13 | round trip: a configuration written as JSON parses back to itself exactly when it is valid |
| Schema.RequiresName | src/schema.ts:10 | an item without a non-empty string `name` is rejected |
| Feeds.ParseResponse | src/comic/Feed.ts:43-59 | a feed results exactly when the response is ok and parses; otherwise a `FeedError` names the status, URL and body, or says "could not parse feed" |
| Feeds.FormatDateAsName | src/comic/Feed.ts:61-63 | the name is the first ten characters of the ISO rendering, or all of it when shorter |
| Feeds.FeedNameOf | src/comic/Feed.ts:68-73 | the decoded feed title, or the comic name when the feed has no title |
| Feeds.LatestOf | src/comic/Feed.ts:80-89 | the first item exactly when the feed has items, otherwise `FeedError` "no items in feed" |
| Feeds.DateUpdatedOf | src/comic/Feed.ts:96-111 | the latest item's date wins over the feed's updated date; with neither, `FeedError`; an empty feed gives the `latest` error |
| Feeds.PageNameOf | src/comic/Feed.ts:116-121 | a non-empty title, decoded; otherwise the update date formatted as a name, or its error |
| Feeds.Truthy | src/comic/Feed.ts:117 | the `if (title)` and `if (!link)` tests: present and not the empty string |
| Feeds.PageLinkOf | src/comic/Feed.ts:127-132 | succeeds exactly when the latest item has a non-empty link, and returns it undecoded; otherwise `FeedError` "latest page URL missing" |
| Feeds.Feed.constructor | src/comic/Feed.ts:22-25 | a new feed holds the comic and the content, with nothing memoised |
| Feeds.Feed.FromResponse | src/comic/Feed.ts:43-59 | builds a fresh feed exactly when `ParseResponse` succeeds, and throws its error otherwise |
| Feeds.Feed.Latest | src/comic/Feed.ts:75-89 | returns `LatestOf`; a memoised value is returned unchanged, and a success is memoised |
| Feeds.Feed.DateUpdated | src/comic/Feed.ts:91-111 | returns `DateUpdatedOf`; once memoised the value never changes; `#dateUpdated` is set on success and `#latest` whenever `latest` succeeds, and memoised values always equal the getters' results |
| Feeds.Feed.PageName | src/comic/Feed.ts:116-121 | returns `PageNameOf`; `#latest` is set when `latest` succeeds, and `#dateUpdated` is set only when the title is empty and the date is found, and is otherwise unchanged |
| Feeds.Feed.PageLink | src/comic/Feed.ts:127-132 | returns `PageLinkOf`; `#latest` is set when `latest` succeeds, and is otherwise unchanged |
| Pages.TrimStart | src/comic/Page.ts:110 | the start removed is all white space, and what is left does not start with white space |
| Pages.TrimEnd | src/comic/Page.ts:110 | the end removed is all white space, and what is left does not end with white space |
| Pages.Trim | src/comic/Page.ts:110 | the result is a slice of the input with only white space cut off at each end, and neither starts nor ends with white space |
| Pages.NormalizeAltText | src/comic/Page.ts:108-113 | defined exactly for a present, non-empty input whose decoded, trimmed form is non-empty, and then that form |
| Pages.Selectors | src/comic/Page.ts:92-95 | the handler is registered on the image selector, then on the alt selector exactly when a non-empty one is configured |
| Pages.ImageOf | src/comic/Page.ts:72-75 | an element offers its `src` as the image only when it is present and non-empty; a text chunk offers none |
| Pages.AltOf | src/comic/Page.ts:77-89 | an element offers its normalised `title`, a text chunk its normalised text |
| Pages.FirstDefined | src/comic/Page.ts:67-90 | the value a write-once variable ends with; `FirstDefinedIsFirst` states it is the first one offered |
| Pages.FirstDefinedIsFirst | src/comic/Page.ts:67-90 | the first defined value is at the least index holding one; nothing when there is none |
| Pages.Scan | src/comic/Page.ts:67-90 | the handler loop keeps the first non-empty `src` and the first normalised alt text offered, never overwriting them |
| Pages.PageOf | src/comic/Page.ts:55-102 | `PageError` naming the status, URL and body for a non-ok response; for an ok one, a page exactly when some handler call offers a non-empty `src`, and the `PageError` "could not find image URI" otherwise |
| Pages.FromResponse | src/comic/Page.ts:55-102 | the status check followed by one scan computes `PageOf` |
| Pages.PageIsFirstMatch | src/comic/Page.ts:67-101 | a produced page's image is the first non-empty `src`; its alt text, if any, is non-empty, trimmed and the first offered; no alt text means none was offered |
| Notifiers.CacheKeysOf | src/comic/Notifier.ts:46 | one key per configured webhook, in order |
| Notifiers.LastUpdateMap | src/comic/Notifier.ts:47 | the map has exactly the requested keys, each holding the stored date or nothing |
| Notifiers.FromData | src/comic/Notifier.ts:40-55 | no webhooks gives `NotifierError` "no webhook targets configured"; a notifier keeps the feed, page and comic, and its targets are configured webhooks |
| Notifiers.TargetsAreStaleWebhooks | src/comic/Notifier.ts:48-52 | with a known update date, the targets are exactly the webhooks never notified or notified strictly earlier, in configured order |
| Notifiers.SelectTargets | src/comic/Notifier.ts:48-52 | the `filter`: a webhook with nothing stored is kept without reading `dateUpdated`; otherwise `dateUpdated` is read, its error thrown, and the webhook kept when its stored date is strictly earlier |
| Notifiers.TargetsWithoutDate | src/comic/Notifier.ts:48-52 | when the update date cannot be found, selection throws that error exactly when some webhook has a stored date, and otherwise keeps every webhook |
| Notifiers.NeverNotifiedIsTarget | src/comic/Notifier.ts:49-50 | a webhook with nothing stored is always a target |
| Notifiers.UpToDateIsNotTarget | src/comic/Notifier.ts:51 | a webhook stored at or after the update date is not a target |
| Notifiers.EmbedsOf | src/comic/Notifier.ts:75-88 | one page embed with the page name, feed name, image and link, plus one alt-text embed exactly when there is alt text; a feed error propagates |
| Notifiers.FailedTargets | src/comic/Notifier.ts:123 | no more failures than targets |
| Notifiers.FailedTargetsAreFailures | src/comic/Notifier.ts:123 | the failed targets are exactly the targets whose post is not ok, and there are none exactly when every post is ok |
| Notifiers.FailureErrors | src/comic/Notifier.ts:123-128 | one new error object per failed target, with consecutive fresh identities |
| Notifiers.StoreAfterWrites | src/comic/Notifier.ts:123-130 | a key is set to `now` exactly when a target with that key was posted to successfully; every other entry is unchanged |
| Notifiers.FailedTargetUnchanged | src/comic/Notifier.ts:123-130 | a refused post leaves its key as it was |
| Notifiers.SendUpdate | src/comic/Notifier.ts:112-131 | an ok post writes `now` under the target's key; a refused one rejects with `NotifierError` naming the URL, status and body, and writes nothing |
| Notifiers.FailedDetail | src/comic/Notifier.ts:126 | the detail `failed posting to URL with STATUS: BODY` |
| Notifiers.StoreAfter | src/comic/Notifier.ts:123-130 | the store after the deliveries: each ok post, in target order, writes `now` under its key; `StoreAfterWrites` states its meaning |
| Notifiers.DeliveryOf | src/comic/Notifier.ts:95-103 | the reference definition of `sendUpdates`: one post per target, the store writes, and a rejection with one error per failed target when any failed |
| Notifiers.SendUpdates | src/comic/Notifier.ts:95-103 | delivering to every target, in order, then collecting, computes `DeliveryOf`: one post per target, the store writes, and a rejection holding all failures |
| Notifiers.CollectFailures | src/comic/Notifier.ts:96-102 | the collector throws exactly when some post failed, and then throws the failure errors in order |
| Notifiers.DeliveryRejectsPerFailure | src/comic/Notifier.ts:95-103 | delivery resolves exactly when every post is ok; otherwise it throws one `NotifierError` per failed target, in order |
| Notifiers.Send | src/comic/Notifier.ts:64-70 | with no targets it logs once; otherwise it builds the embeds, whose error rejects, and delivers |
| Notifiers.SendOf | src/comic/Notifier.ts:64-70 | the reference definition of `send`: a log line with no targets, the embeds' error, or the deliveries |
| Notifiers.NoTargetsNoPost | src/comic/Notifier.ts:65-68 | with no targets nothing is posted or written, one line is logged and `send` resolves |
| Notifiers.SendPostsTargets | src/comic/Notifier.ts:95-99 | `send` posts only to its targets |
| Notifiers.SendStoreWrites | src/comic/Notifier.ts:112-131 | `send` never deletes a store entry, and changes one only to `now` after an ok post to a webhook with that key |
| Comic.FromIndexItem | src/comic/Comic.ts:26-34 | an item yields a comic exactly when it meets the schema; the comic keeps its known fields; otherwise a plain error "error parsing index item: …" |
| Comic.FromIndexItemRoundTrip | src/comic/Comic.ts:26-34 | a valid configuration written as an index item comes back unchanged |
| Comic.Process | src/comic/Comic.ts:40-45 | feed, then page, then notifier, then `send`, each step's error rejecting, computes `ProcessOf` |
| Comic.ProcessOf | src/comic/Comic.ts:40-45 | the reference definition of `process`: the first failing step rejects with its error; otherwise the run is what `send` does, after the feed and page fetches and the cache read |
| Comic.NotifierOf | src/comic/Comic.ts:41-43 | the notifier built from the fetched feed and page when every step before `send` succeeds |
| Comic.ProcessFails | src/comic/Comic.ts:40-44 | when a step before `send` fails, processing rejects with one new error object and leaves the store unchanged |
| Comic.ProcessFailsEarly | src/comic/Comic.ts:40-44 | a failure before `send` fetches the feed first, causes at most three effects and posts nothing |
| Comic.ProcessNoWebhooks | src/comic/Notifier.ts:41-47 | with no webhooks the run rejects before any store read or post; once the feed and page are fetched, the reason is the "no webhook targets configured" NotifierError and the effects are the two GETs |
| Comic.ProcessSends | src/comic/Comic.ts:40-45 | when every step succeeds, the run is the feed fetch, the page fetch, the cache read, then exactly what `send` does |
| Comic.ProcessIds | src/comic/Comic.ts:40-45 | the error objects processing throws have fresh consecutive identities, one per identity used, and it resolves exactly when none is used |
| Comic.ProcessOrder | src/comic/Comic.ts:41-44 | the feed is fetched first; nothing is posted unless every step succeeds, and then the page fetch and the cache read come second and third |
| Comic.ProcessPostsConfigured | src/comic/Comic.ts:40-45 | every post comes after the three reads and goes to a configured webhook |
| Comic.ProcessStoreWrites | src/comic/Comic.ts:40-45 | a failed step writes nothing; no entry is ever deleted; an entry changes only to `now` after an ok post to its webhook |
| Comic.ProcessResolves | src/comic/Comic.ts:40-45 | when all steps and posts succeed, processing resolves, posts to each target once in order, and records `now` for each |
| Comics.ParseResults | src/comic/Comics.ts:30-36 | one parse result per index item |
| Comics.ParseResultsAt | src/comic/Comics.ts:30-36 | the result at each position is the parse of the item there |
| Comics.Successes | src/comic/Comics.ts:30-36 | the comics the loop pushes: the successful parses, in order |
| Comics.Failures | src/comic/Comics.ts:30-36 | the errors the loop adds: one new error object per failed parse, in order, with identities counted up from the first free one |
| Comics.ResultsPartition | src/comic/Comics.ts:30-36 | every result is either a comic or an error; there are no errors exactly when every item parses |
| Comics.FailureIds | src/comic/Comics.ts:34 | the errors of the index loop have consecutive fresh identities |
| Comics.IndexPartition | src/comic/Comics.ts:28-36 | the comics and errors together number the items; every comic is valid; every error rejects an item that fails the schema |
| Comics.IndexValidIffNoErrors | src/comic/Comics.ts:28-36 | the index loop collects no error exactly when every item meets the schema |
| Comics.Comics.constructor | src/comic/Comics.ts:9-14 | the set holds the comics and the collector given, and a valid collector gives a valid set |
| Comics.Comics.FromIndex | src/comic/Comics.ts:20-39 | a non-array index throws "error parsing index: …"; otherwise the valid items become comics in order, and each invalid one leaves one error in a fresh collector |
| Comics.ProcessAllOf | src/comic/Comics.ts:50-52 | one settled outcome per comic |
| Comics.ProcessAllIds | src/comic/Comics.ts:50-53 | the collected errors of a run have fresh consecutive identities, one per identity used; all comics resolve exactly when none is used |
| Comics.MergeCollected | src/comic/Comics.ts:53-54 | merging the run's collector into `errors` appends the new errors in order, and keeps the set duplicate-free |
| Comics.Comics.Process | src/comic/Comics.ts:46-55 | `errors` gains exactly the run's collected errors, after the old ones; the store, identities and effects are those of `ProcessAllOf` |
| Comics.ProcessAddsOnePerFailure | src/comic/Comics.ts:46-55 | the collection grows by one per new error object, and is unchanged exactly when every comic resolved |

## Left out

- I/O: `fetch`, the Workers KV store and `console` are not called. The KV store is a
  value `map<string, int>` that runs pass along. A fetch is a function `get`/`post`
  from URL to response. A log line is a `Log` effect. In the model a fetch,
  `response.text()`, `KV.get` and `KV.put` never reject. In particular, a `KV.put` that
  rejects after an ok post (src/comic/Notifier.ts:130), which makes `sendUpdate` reject,
  is not modelled.
- Concurrency: `Promise.allSettled` is run in order, one promise after another.
  Interleaving could reorder store writes and effects; the model ignores that.
  Every cache write within one run records the same time `now`.
- Dates are integer timestamps. `Date.prototype.toISOString` is the parameter `toIso`.
  An Invalid Date (NaN), which `parseFeed` produces from a date text that does not
  parse, cannot occur in the model. `DateUpdatedOf` would return it as a success.
- FormatDateAsName: assumes a valid date. For an Invalid Date, `toISOString` at
  src/comic/Feed.ts:62 throws a `RangeError`, so `pageName` of an untitled latest item
  rejects with that `RangeError` and not with a `FeedError`. The model does not capture this.
- SelectTargets: assumes a valid date. For an Invalid Date, `webhookUpdated < dateUpdated`
  at src/comic/Notifier.ts:51 is false, so no webhook with a stored date is ever a target
  again; webhooks with nothing stored are still targets. The model does not capture this.
- `lastUpdateMapSchema` (src/schema.ts:16) coerces stored strings to dates. The model
  has the store hold timestamps already, and a key that is missing or `null` is `None`.
- Foreign libraries are function parameters:
  - htmlparser2's `parseFeed` is `parseFeed`;
  - `decodeXML` and `decodeHTML` are `decodeXml` and `decodeHtml`;
  - zod's URL check is `isUrl`;
  - `z.prettifyError` is `prettify`;
  - HTMLRewriter is `rewrite`, which gives the sequence of handler calls, in document
    order, for a body and a list of selectors.
- NormalizeAltText: its input is modelled as an optional string. The `typeof input !==
  "string"` test is left out, because the attribute and the text a handler gets are
  always strings or absent.
- The POST request body is left out: the embeds, `DISCORD_USERNAME` and
  `DISCORD_AVATAR_URL`. A `Post` effect carries the URL only. `EmbedsOf` is still
  computed once before any post, and its error is still raised at that point.
- `Notifier.fromData` reads `comic.webhooks`. The schema and `Comic` call this field
  `webhookUrls`. The model treats the two as the same list.
- Object identity is modelled structurally. Error objects carry an identity number. A
  comic is its `ComicData`; its getters (src/comic/Comic.ts:8-22) simply return those
  fields. The `Set` a `Comics` object extends is a sequence, in insertion order.
- `Comics.process` creates a default `HTMLRewriter` when none is given. The rewriter is
  a parameter of the model, so that default is not modelled.
- `Feed.fromComic` and `Page.fromUrl` are the `Get` effect at the call site, followed
  by the corresponding `fromResponse`.
- src/index.ts, the scheduled entry point that times a run and prints its errors, is
  not part of this model.
- src/utils/updateCachedDate.ts is modelled as the store write `key := now` at
  src/comic/Notifier.ts:130. Its ISO text encoding is not modelled.
- The code has no pagination: `Page.fromResponse` reads one page. The model follows the code.
- `normalizeUrl` is modelled and proved on its own. No other core module calls it:
  `Page.fromResponse` keeps the `src` attribute as written.
