/**
 * src/comic/Comic.ts: a comic is its validated data (the five getters return the fields
 * unchanged), parsed from an index item, and processed by fetching its feed, then its
 * latest page, then choosing targets from the store and notifying them.
 */
module Comic {
  import opened Wrappers
  import opened Strings
  import opened Schema
  import opened ComicErrors
  import opened ErrorCollectors
  import opened CacheKeys
  import opened Feeds
  import opened Pages
  import opened Notifiers
  import opened Http

  /**
   * What a run sees of the outside world: the answers to GET and POST requests, the
   * foreign parsers and decoders, and the clock reading used for every store write.
   */
  datatype World = World(
    get: string -> Response,
    post: string -> Response,
    parseFeed: string -> Option<RssFeed>,
    rewrite: (string, seq<string>) -> seq<Event>,
    decodeXml: string -> string,
    decodeHtml: string -> string,
    toIso: int -> string,
    now: int)

  /** `Comic.fromIndexItem(item)`: the validated data, or a plain `Error` naming the zod issues. */
  function FromIndexItem(item: Json, isUrl: string -> bool, prettify: Json -> string): (r: Result<ComicData, ErrorInfo>)
    ensures r.Success? <==> IsComicData(item, isUrl)
    ensures r.Success? ==> ValidComicData(r.value, isUrl) && ToJson(r.value) == Stripped(item)
    ensures r.Failure? ==> r.error == PlainErrorOf("error parsing index item: " + prettify(item))
  {
    match ParseComicData(item, isUrl)
    case None => Failure(PlainErrorOf("error parsing index item: " + prettify(item)))
    case Some(c) => Success(c)
  }

  /** Every valid comic comes back unchanged from its own index entry. */
  lemma FromIndexItemRoundTrip(c: ComicData, isUrl: string -> bool, prettify: Json -> string)
    requires ValidComicData(c, isUrl)
    ensures FromIndexItem(ToJson(c), isUrl, prettify) == Success(c)
  {
    ParseToJson(c, isUrl);
  }

  /** The ids of the error objects a settled result throws, flattened once as a collector adds them. */
  function Thrown(outcome: Settled): seq<Value> {
    if outcome.Fulfilled? then [] else Flat(outcome.reason)
  }

  /** Every step before `send` succeeds: feed, page link, page and notifier. */
  predicate StepsSucceed(comic: ComicData, w: World, store: Store) {
    var content := ParseResponse(w.get(comic.rssUrl), comic, w.parseFeed);
    && content.Success?
    && PageLinkOf(comic, content.value).Success?
    && PageOf(w.get(PageLinkOf(comic, content.value).value), comic, w.rewrite, w.decodeHtml).Success?
    && FromData(comic, content.value, PageOf(w.get(PageLinkOf(comic, content.value).value), comic, w.rewrite, w.decodeHtml).value, store).Success?
  }

  /** The notifier `process` builds when every step succeeds. */
  function NotifierOf(comic: ComicData, w: World, store: Store): Notifier
    requires StepsSucceed(comic, w, store)
  {
    var content := ParseResponse(w.get(comic.rssUrl), comic, w.parseFeed).value;
    var link := PageLinkOf(comic, content).value;
    FromData(comic, content, PageOf(w.get(link), comic, w.rewrite, w.decodeHtml).value, store).value
  }

  /**
   * What `comic.process(rewriter)` does: each step's error is thrown as one new error
   * object and ends the run; otherwise the notifier sends.
   */
  function ProcessOf(comic: ComicData, w: World, store: Store, nextId: nat): Run {
    var feedGet := [Get(comic.rssUrl)];
    var content := ParseResponse(w.get(comic.rssUrl), comic, w.parseFeed);
    if content.Failure? then Run(Rejected(Other(nextId, content.error)), store, nextId + 1, feedGet)
    else
      var link := PageLinkOf(comic, content.value);
      if link.Failure? then Run(Rejected(Other(nextId, link.error)), store, nextId + 1, feedGet)
      else
        var gets := feedGet + [Get(link.value)];
        var page := PageOf(w.get(link.value), comic, w.rewrite, w.decodeHtml);
        if page.Failure? then Run(Rejected(Other(nextId, page.error)), store, nextId + 1, gets)
        else
          var cacheRead := if |comic.webhookUrls| == 0 then [] else [ReadCache(CacheKeysOf(comic))];
          var notifier := FromData(comic, content.value, page.value, store);
          if notifier.Failure? then Run(Rejected(Other(nextId, notifier.error)), store, nextId + 1, gets + cacheRead)
          else
            var sent := SendOf(notifier.value, w.post, w.decodeXml, w.toIso, store, w.now, nextId);
            Run(sent.outcome, sent.store, sent.nextId, gets + cacheRead + sent.effects)
  }

  /** `comic.process(rewriter)`: `Feed.fromComic`, `Page.fromUrl(feed.pageLink)`, `Notifier.fromData`, `send`. */
  method Process(comic: ComicData, w: World, store: Store, nextId: nat) returns (r: Run)
    ensures r == ProcessOf(comic, w, store, nextId)
  {
    var effects := [Get(comic.rssUrl)];
    var fetched := Feed.FromResponse(w.get(comic.rssUrl), comic, w.parseFeed);
    if fetched.Failure? {
      return Run(Rejected(Other(nextId, fetched.error)), store, nextId + 1, effects);
    }
    var feed := fetched.value;
    var link := feed.PageLink();
    if link.Failure? {
      return Run(Rejected(Other(nextId, link.error)), store, nextId + 1, effects);
    }
    effects := effects + [Get(link.value)];
    var page := Pages.FromResponse(w.get(link.value), comic, w.rewrite, w.decodeHtml);
    if page.Failure? {
      return Run(Rejected(Other(nextId, page.error)), store, nextId + 1, effects);
    }
    if |comic.webhookUrls| != 0 {
      effects := effects + [ReadCache(CacheKeysOf(comic))];
    }
    var notifier := FromData(comic, feed.content, page.value, store);
    if notifier.Failure? {
      return Run(Rejected(Other(nextId, notifier.error)), store, nextId + 1, effects);
    }
    var sent := Send(notifier.value, w.post, w.decodeXml, w.toIso, store, w.now, nextId);
    r := Run(sent.outcome, sent.store, sent.nextId, effects + sent.effects);
  }

  /** A run whose earlier steps fail throws one new error object and leaves the store alone. */
  lemma ProcessFails(comic: ComicData, w: World, store: Store, nextId: nat)
    requires !StepsSucceed(comic, w, store)
    ensures var r := ProcessOf(comic, w, store, nextId);
            && r.outcome.Rejected? && r.outcome.reason.Other? && r.outcome.reason.id == nextId
            && r.store == store && r.nextId == nextId + 1
  {
  }

  /** A run whose earlier steps fail makes no POST: it stops after at most the two GETs and the store read. */
  lemma ProcessFailsEarly(comic: ComicData, w: World, store: Store, nextId: nat)
    requires !StepsSucceed(comic, w, store)
    ensures var r := ProcessOf(comic, w, store, nextId);
            && 1 <= |r.effects| <= 3 && r.effects[0] == Get(comic.rssUrl)
            && forall i :: 0 <= i < |r.effects| ==> !r.effects[i].Post?
  {
  }

  /**
   * A comic with no webhooks is rejected without reading the store: once its feed and
   * page are fetched, the reason is the "no webhook targets configured" `NotifierError`,
   * and the run's only effects are the two GETs.
   */
  lemma ProcessNoWebhooks(comic: ComicData, w: World, store: Store, nextId: nat)
    requires |comic.webhookUrls| == 0
    ensures var r := ProcessOf(comic, w, store, nextId);
            && r.outcome.Rejected? && r.store == store
            && forall i :: 0 <= i < |r.effects| ==> !r.effects[i].ReadCache? && !r.effects[i].Post?
    ensures var content := ParseResponse(w.get(comic.rssUrl), comic, w.parseFeed);
            content.Success? && PageLinkOf(comic, content.value).Success? &&
            PageOf(w.get(PageLinkOf(comic, content.value).value), comic, w.rewrite, w.decodeHtml).Success? ==>
              ProcessOf(comic, w, store, nextId) ==
                Run(Rejected(Other(nextId, ComicError(NotifierError, comic, "no webhook targets configured"))),
                    store, nextId + 1, [Get(comic.rssUrl), Get(PageLinkOf(comic, content.value).value)])
  {
  }

  /** A run whose earlier steps succeed is the two GETs and the store read, then `send`. */
  lemma ProcessSends(comic: ComicData, w: World, store: Store, nextId: nat)
    requires StepsSucceed(comic, w, store)
    ensures var content := ParseResponse(w.get(comic.rssUrl), comic, w.parseFeed).value;
            var sent := SendOf(NotifierOf(comic, w, store), w.post, w.decodeXml, w.toIso, store, w.now, nextId);
            ProcessOf(comic, w, store, nextId) ==
              Run(sent.outcome, sent.store, sent.nextId,
                  [Get(comic.rssUrl), Get(PageLinkOf(comic, content).value), ReadCache(CacheKeysOf(comic))] + sent.effects)
  {
  }

  /**
   * Every identity a run allocates is thrown, once, in increasing order: the run
   * resolves exactly when it allocated none.
   */
  lemma ProcessIds(comic: ComicData, w: World, store: Store, nextId: nat)
    ensures var r := ProcessOf(comic, w, store, nextId);
            && nextId <= r.nextId
            && IdsIn(Thrown(r.outcome), nextId, r.nextId)
            && |Thrown(r.outcome)| == r.nextId - nextId
            && (r.outcome.Fulfilled? <==> r.nextId == nextId)
  {
    var r := ProcessOf(comic, w, store, nextId);
    if !StepsSucceed(comic, w, store) {
      ProcessFails(comic, w, store, nextId);
    } else {
      ProcessSends(comic, w, store, nextId);
      var n := NotifierOf(comic, w, store);
      var failed := FailedTargets(n.targets, w.post);
      if |n.targets| != 0 && EmbedsOf(n, w.decodeXml, w.toIso).Success? && |failed| != 0 {
        assert Thrown(r.outcome) == FailureErrors(comic, failed, w.post, nextId);
      }
    }
  }

  /**
   * Nothing is posted unless every earlier step succeeded, and then the two GETs and the
   * store read come first, in that order.
   */
  lemma ProcessOrder(comic: ComicData, w: World, store: Store, nextId: nat)
    ensures var r := ProcessOf(comic, w, store, nextId);
            && |r.effects| >= 1 && r.effects[0] == Get(comic.rssUrl)
            && ((exists i :: 0 <= i < |r.effects| && r.effects[i].Post?) ==> StepsSucceed(comic, w, store))
            && (StepsSucceed(comic, w, store) ==>
                  var content := ParseResponse(w.get(comic.rssUrl), comic, w.parseFeed).value;
                  && |r.effects| >= 3
                  && r.effects[1] == Get(PageLinkOf(comic, content).value)
                  && r.effects[2] == ReadCache(CacheKeysOf(comic)))
  {
    if !StepsSucceed(comic, w, store) {
      ProcessFailsEarly(comic, w, store, nextId);
    } else {
      ProcessSends(comic, w, store, nextId);
    }
  }

  /** Effects without a POST, then effects posting only to `targets`: every POST is in the second part. */
  lemma PostsAfter(prefix: seq<Effect>, rest: seq<Effect>, targets: seq<string>, allowed: seq<string>)
    requires forall i :: 0 <= i < |prefix| ==> !prefix[i].Post?
    requires forall i :: 0 <= i < |rest| && rest[i].Post? ==> rest[i].url in targets
    requires forall t :: t in targets ==> t in allowed
    ensures forall i :: 0 <= i < |prefix + rest| && (prefix + rest)[i].Post? ==>
              |prefix| <= i && (prefix + rest)[i].url in allowed
  {
    forall i | 0 <= i < |prefix + rest| && (prefix + rest)[i].Post? ensures |prefix| <= i && (prefix + rest)[i].url in allowed {
      if i >= |prefix| {
        assert (prefix + rest)[i] == rest[i - |prefix|];
      }
    }
  }

  /** Every POST comes after the two GETs and the store read, and goes to a configured webhook. */
  lemma ProcessPostsConfigured(comic: ComicData, w: World, store: Store, nextId: nat)
    ensures var r := ProcessOf(comic, w, store, nextId);
            forall i :: 0 <= i < |r.effects| && r.effects[i].Post? ==> 3 <= i && r.effects[i].url in comic.webhookUrls
  {
    var r := ProcessOf(comic, w, store, nextId);
    if !StepsSucceed(comic, w, store) {
      ProcessFailsEarly(comic, w, store, nextId);
    } else {
      ProcessSends(comic, w, store, nextId);
      var n := NotifierOf(comic, w, store);
      var content := ParseResponse(w.get(comic.rssUrl), comic, w.parseFeed).value;
      var sent := SendOf(n, w.post, w.decodeXml, w.toIso, store, w.now, nextId);
      SendPostsTargets(n, w.post, w.decodeXml, w.toIso, store, w.now, nextId);
      PostsAfter([Get(comic.rssUrl), Get(PageLinkOf(comic, content).value), ReadCache(CacheKeysOf(comic))],
                 sent.effects, n.targets, comic.webhookUrls);
    }
  }

  /**
   * The store changes only through successful posts: an entry that differs afterwards
   * holds `now` and belongs to a webhook that was posted to and answered ok. A run whose
   * earlier steps fail leaves the store alone.
   */
  lemma ProcessStoreWrites(comic: ComicData, w: World, store: Store, nextId: nat)
    ensures var r := ProcessOf(comic, w, store, nextId);
            && (!StepsSucceed(comic, w, store) ==> r.store == store && r.outcome.Rejected?)
            && (forall k :: k in r.store && (k !in store || r.store[k] != store[k]) ==>
                  r.store[k] == w.now && PostedOk(r.effects, w.post, comic, k))
            && (forall k :: k in store ==> k in r.store)
  {
    var r := ProcessOf(comic, w, store, nextId);
    if !StepsSucceed(comic, w, store) {
      ProcessFails(comic, w, store, nextId);
    } else {
      ProcessSends(comic, w, store, nextId);
      var n := NotifierOf(comic, w, store);
      var sent := SendOf(n, w.post, w.decodeXml, w.toIso, store, w.now, nextId);
      SendStoreWrites(n, w.post, w.decodeXml, w.toIso, store, w.now, nextId);
      var content := ParseResponse(w.get(comic.rssUrl), comic, w.parseFeed).value;
      var prefix := [Get(comic.rssUrl), Get(PageLinkOf(comic, content).value), ReadCache(CacheKeysOf(comic))];
      forall k | k in r.store && (k !in store || r.store[k] != store[k]) ensures PostedOk(r.effects, w.post, comic, k) {
        PostedOkAfter(prefix, sent.effects, w.post, comic, k);
      }
    }
  }

  /**
   * When the feed, the page and every post succeed, processing resolves, every target
   * is posted to once, in order, and every target's key holds `now`.
   */
  lemma ProcessResolves(comic: ComicData, w: World, store: Store, nextId: nat)
    requires StepsSucceed(comic, w, store)
    requires var n := NotifierOf(comic, w, store);
             EmbedsOf(n, w.decodeXml, w.toIso).Success? && forall t :: t in n.targets ==> w.post(t).Ok()
    ensures var r := ProcessOf(comic, w, store, nextId);
            var n := NotifierOf(comic, w, store);
            && r.outcome == Fulfilled
            && |r.effects| >= 3
            && (|n.targets| > 0 ==> r.effects[3..] == Posts(n.targets))
            && forall t :: t in n.targets ==> BuildCacheKey(t, comic) in r.store && r.store[BuildCacheKey(t, comic)] == w.now
  {
    ProcessSends(comic, w, store, nextId);
    var n := NotifierOf(comic, w, store);
    FailedTargetsAreFailures(n.targets, w.post);
    StoreAfterWrites(comic, n.targets, w.post, store, w.now);
    forall t | t in n.targets ensures Written(comic, n.targets, w.post, BuildCacheKey(t, comic)) {
      var j :| 0 <= j < |n.targets| && n.targets[j] == t;
    }
  }
}
