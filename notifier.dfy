/**
 * src/comic/Notifier.ts: choosing the webhooks that have not yet been told about the
 * latest page, building the Discord embeds, and posting them. The key-value store is a
 * map from cache key to the timestamp last written there, passed in and returned.
 */
module Notifiers {
  import opened Wrappers
  import opened Strings
  import opened Schema
  import opened ComicErrors
  import opened ErrorCollectors
  import opened CacheKeys
  import opened Feeds
  import opened Pages
  import opened Http

  /** The key-value store's cache entries: key to last-notified timestamp. */
  type Store = map<string, int>

  /** The observable result of an asynchronous step: how it settled, the store, the next free identity and the effects. */
  datatype Run = Run(outcome: Settled, store: Store, nextId: nat, effects: seq<Effect>)

  /** A notifier: the chosen targets and the feed, page and comic the embeds are built from. */
  datatype Notifier = Notifier(targets: seq<string>, content: RssFeed, page: PageData, comic: ComicData)

  /** A Discord embed: the page embed, or the alt-text embed. */
  datatype Embed =
    | PageEmbed(title: string, authorName: string, imageUrl: string, url: string)
    | AltTextEmbed(description: string)

  /** The keys `fromData` reads: one per configured webhook, in order. */
  function CacheKeysOf(comic: ComicData): (keys: seq<string>)
    ensures |keys| == |comic.webhookUrls|
    ensures forall i :: 0 <= i < |keys| ==> keys[i] == BuildCacheKey(comic.webhookUrls[i], comic)
  {
    seq(|comic.webhookUrls|, i requires 0 <= i < |comic.webhookUrls| => BuildCacheKey(comic.webhookUrls[i], comic))
  }

  /**
   * `lastUpdateMapSchema.parse(await env.KV.get(kvKeys))`: every requested key, mapped
   * to its stored date or to null when nothing is stored.
   */
  function LastUpdateMap(store: Store, keys: seq<string>): (m: map<string, Option<int>>)
    ensures forall k :: k in m <==> k in keys
    ensures forall k :: k in m ==> m[k] == if k in store then Some(store[k]) else None
  {
    map k | k in keys :: if k in store then Some(store[k]) else None
  }

  /** `updateMap.get(key)`, with `undefined` and `null` both read as nothing stored. */
  function Lookup(m: map<string, Option<int>>, key: string): Option<int> {
    if key in m then m[key] else None
  }

  /** Whether a webhook is behind the feed: nothing stored, or a stored date strictly earlier. */
  predicate Stale(cached: Option<int>, dateUpdated: int) {
    cached.None? || cached.value < dateUpdated
  }

  /**
   * The `filter` of `fromData`: a webhook with nothing stored is kept without reading
   * `dateUpdated`; otherwise `dateUpdated` is read, and its error is thrown.
   */
  function SelectTargets(comic: ComicData, webhooks: seq<string>, m: map<string, Option<int>>, dateUpdated: Result<int, ErrorInfo>)
    : Result<seq<string>, ErrorInfo>
  {
    if webhooks == [] then Success([])
    else
      var cached := Lookup(m, BuildCacheKey(webhooks[0], comic));
      if cached.None? then
        match SelectTargets(comic, webhooks[1..], m, dateUpdated)
        case Success(rest) => Success([webhooks[0]] + rest)
        case Failure(e) => Failure(e)
      else
        match dateUpdated
        case Failure(e) => Failure(e)
        case Success(d) =>
          match SelectTargets(comic, webhooks[1..], m, dateUpdated)
          case Success(rest) => Success(if cached.value < d then [webhooks[0]] + rest else rest)
          case Failure(e) => Failure(e)
  }

  /** `a` is `b` with some elements left out and the rest in the same order. */
  predicate IsSubsequence(a: seq<string>, b: seq<string>) {
    if a == [] then true
    else if b == [] then false
    else if a[0] == b[0] then IsSubsequence(a[1..], b[1..])
    else IsSubsequence(a, b[1..])
  }

  /**
   * With a known update date, the targets are exactly the stale webhooks, in their
   * configured order; an equal or later stored date excludes a webhook.
   */
  lemma {:induction false} TargetsAreStaleWebhooks(comic: ComicData, webhooks: seq<string>, m: map<string, Option<int>>, d: int)
    ensures SelectTargets(comic, webhooks, m, Success(d)).Success?
    ensures var ts := SelectTargets(comic, webhooks, m, Success(d)).value;
            && (forall w :: w in ts <==> w in webhooks && Stale(Lookup(m, BuildCacheKey(w, comic)), d))
            && IsSubsequence(ts, webhooks)
            && |ts| <= |webhooks|
  {
    if webhooks != [] {
      TargetsAreStaleWebhooks(comic, webhooks[1..], m, d);
      var ts := SelectTargets(comic, webhooks, m, Success(d)).value;
      var rest := SelectTargets(comic, webhooks[1..], m, Success(d)).value;
      assert webhooks == [webhooks[0]] + webhooks[1..];
      if ts != rest {
        assert ts == [webhooks[0]] + rest && ts[1..] == rest;
      } else if rest != [] && rest[0] == webhooks[0] {
        SubsequenceOfTail(rest, webhooks);
      }
    }
  }

  lemma {:induction false} SubsequenceOfTail(a: seq<string>, b: seq<string>)
    requires b != [] && IsSubsequence(a, b[1..])
    ensures IsSubsequence(a, b)
    decreases |b|, 0
  {
    if a != [] && a[0] == b[0] {
      var t := b[1..];
      if t != [] && a[0] == t[0] {
        SubsequenceOfTail(a[1..], t);
        assert t[1..] == b[2..];
      } else {
        assert t != [];
        assert IsSubsequence(a, t[1..]);
        SubsequenceOfTail(a, t);
        SubsequenceDropFirst(a, t);
      }
    }
  }

  lemma {:induction false} SubsequenceDropFirst(a: seq<string>, b: seq<string>)
    requires a != [] && IsSubsequence(a, b)
    ensures IsSubsequence(a[1..], b)
    decreases |b|, 1
  {
    assert b != [];
    if a[0] == b[0] {
      SubsequenceOfTail(a[1..], b);
    } else {
      SubsequenceDropFirst(a, b[1..]);
      SubsequenceOfTail(a[1..], b);
    }
  }

  /**
   * Without a known update date: the filter throws that error exactly when some webhook
   * has a stored date, and otherwise keeps every webhook.
   */
  lemma {:induction false} TargetsWithoutDate(comic: ComicData, webhooks: seq<string>, m: map<string, Option<int>>, e: ErrorInfo)
    ensures var r := SelectTargets(comic, webhooks, m, Failure(e));
            && (r.Failure? <==> exists i :: 0 <= i < |webhooks| && Lookup(m, BuildCacheKey(webhooks[i], comic)).Some?)
            && (r.Failure? ==> r.error == e)
            && (r.Success? ==> r.value == webhooks)
  {
    if webhooks != [] {
      TargetsWithoutDate(comic, webhooks[1..], m, e);
      var w := webhooks[1..];
      assert forall i :: 1 <= i < |webhooks| ==> webhooks[i] == w[i - 1];
      if SelectTargets(comic, w, m, Failure(e)).Failure? {
        var i :| 0 <= i < |w| && Lookup(m, BuildCacheKey(w[i], comic)).Some?;
        assert webhooks[i + 1] == w[i];
      }
    }
  }

  /**
   * `Notifier.fromData`: `NotifierError` when no webhook is configured, before the store
   * is read; otherwise the targets chosen against the stored dates.
   */
  function FromData(comic: ComicData, content: RssFeed, page: PageData, store: Store): (r: Result<Notifier, ErrorInfo>)
    ensures |comic.webhookUrls| == 0 ==> r == Failure(ComicError(NotifierError, comic, "no webhook targets configured"))
    ensures r.Success? ==> r.value.comic == comic && r.value.content == content && r.value.page == page
    ensures r.Success? ==> forall t :: t in r.value.targets ==> t in comic.webhookUrls
  {
    if |comic.webhookUrls| == 0 then Failure(ComicError(NotifierError, comic, "no webhook targets configured"))
    else
      var m := LastUpdateMap(store, CacheKeysOf(comic));
      var dateUpdated := DateUpdatedOf(comic, content);
      var targets := SelectTargets(comic, comic.webhookUrls, m, dateUpdated);
      if targets.Failure? then Failure(targets.error)
      else
        assert forall t :: t in targets.value ==> t in comic.webhookUrls by {
          if dateUpdated.Success? {
            TargetsAreStaleWebhooks(comic, comic.webhookUrls, m, dateUpdated.value);
          } else {
            TargetsWithoutDate(comic, comic.webhookUrls, m, dateUpdated.error);
          }
        }
        Success(Notifier(targets.value, content, page, comic))
  }

  /** A webhook that was never notified is always a target (a cold start notifies everyone). */
  lemma NeverNotifiedIsTarget(comic: ComicData, content: RssFeed, page: PageData, store: Store, w: string)
    requires w in comic.webhookUrls && BuildCacheKey(w, comic) !in store
    requires DateUpdatedOf(comic, content).Success?
    ensures FromData(comic, content, page, store).Success?
    ensures w in FromData(comic, content, page, store).value.targets
  {
    var m := LastUpdateMap(store, CacheKeysOf(comic));
    TargetsAreStaleWebhooks(comic, comic.webhookUrls, m, DateUpdatedOf(comic, content).value);
  }

  /** A webhook whose stored date is not earlier than the feed's update date is never a target. */
  lemma UpToDateIsNotTarget(comic: ComicData, content: RssFeed, page: PageData, store: Store, w: string)
    requires FromData(comic, content, page, store).Success?
    requires var key := BuildCacheKey(w, comic);
             key in store && DateUpdatedOf(comic, content).Success? && store[key] >= DateUpdatedOf(comic, content).value
    ensures w !in FromData(comic, content, page, store).value.targets
  {
    var m := LastUpdateMap(store, CacheKeysOf(comic));
    TargetsAreStaleWebhooks(comic, comic.webhookUrls, m, DateUpdatedOf(comic, content).value);
    if w in comic.webhookUrls {
      var i :| 0 <= i < |comic.webhookUrls| && comic.webhookUrls[i] == w;
      assert BuildCacheKey(w, comic) in CacheKeysOf(comic);
    }
  }

  /** The `embeds` getter: the page embed, then an alt-text embed only when the page has alt text. */
  function EmbedsOf(n: Notifier, decodeXml: string -> string, toIso: int -> string): (r: Result<seq<Embed>, ErrorInfo>)
    ensures PageNameOf(n.comic, n.content, decodeXml, toIso).Failure? ==>
              r == Failure(PageNameOf(n.comic, n.content, decodeXml, toIso).error)
    ensures r.Success? <==> PageNameOf(n.comic, n.content, decodeXml, toIso).Success? && PageLinkOf(n.comic, n.content).Success?
    ensures r.Success? ==> 1 <= |r.value| <= 2
    ensures r.Success? ==> r.value[0] == PageEmbed(
              PageNameOf(n.comic, n.content, decodeXml, toIso).value,
              FeedNameOf(n.comic, n.content, decodeXml),
              n.page.imageUri,
              PageLinkOf(n.comic, n.content).value)
    ensures r.Success? ==> (|r.value| == 2 <==> Truthy(n.page.altText))
    ensures r.Success? && |r.value| == 2 ==> r.value[1] == AltTextEmbed("Alt text: ||" + n.page.altText.value + "||")
  {
    var title := PageNameOf(n.comic, n.content, decodeXml, toIso);
    if title.Failure? then Failure(title.error)
    else
      var url := PageLinkOf(n.comic, n.content);
      if url.Failure? then Failure(url.error)
      else
        var main := PageEmbed(title.value, FeedNameOf(n.comic, n.content, decodeXml), n.page.imageUri, url.value);
        Success([main] + if Truthy(n.page.altText) then [AltTextEmbed("Alt text: ||" + n.page.altText.value + "||")] else [])
  }

  /** The detail of a failed post: `failed posting to ${url} with ${status}: ${body}`. */
  function FailedDetail(url: string, response: Response): string {
    "failed posting to " + url + " with " + Decimal(response.status) + ": " + response.body
  }

  /** The targets whose post does not come back ok, in order. */
  function FailedTargets(targets: seq<string>, post: string -> Response): (failed: seq<string>)
    ensures |failed| <= |targets|
  {
    if targets == [] then []
    else
      var last := targets[|targets| - 1];
      FailedTargets(targets[..|targets| - 1], post) + if post(last).Ok() then [] else [last]
  }

  /** One new `NotifierError` object per failed target, in order, with identities from `nextId`. */
  function FailureErrors(comic: ComicData, failed: seq<string>, post: string -> Response, nextId: nat): (es: seq<Value>)
    ensures |es| == |failed| && IdsIn(es, nextId, nextId + |failed|)
  {
    seq(|failed|, i requires 0 <= i < |failed| =>
      Other(nextId + i, ComicError(NotifierError, comic, FailedDetail(failed[i], post(failed[i])))))
  }

  /** The store after the deliveries: each successful target's key is set to `now`, in order. */
  function StoreAfter(comic: ComicData, targets: seq<string>, post: string -> Response, store: Store, now: int): Store {
    if targets == [] then store
    else
      var last := targets[|targets| - 1];
      var before := StoreAfter(comic, targets[..|targets| - 1], post, store, now);
      if post(last).Ok() then before[BuildCacheKey(last, comic) := now] else before
  }

  /** One `Post` per target, in order. */
  function Posts(targets: seq<string>): (effects: seq<Effect>)
    ensures |effects| == |targets| && forall i :: 0 <= i < |targets| ==> effects[i] == Post(targets[i])
  {
    seq(|targets|, i requires 0 <= i < |targets| => Post(targets[i]))
  }

  /** What `sendUpdates` settles to: rejected with the array of failures when there is any. */
  function DeliveryOf(comic: ComicData, targets: seq<string>, post: string -> Response, store: Store, now: int, nextId: nat): Run {
    var failed := FailedTargets(targets, post);
    Run(
      if |failed| == 0 then Fulfilled else Rejected(Iter(FailureErrors(comic, failed, post, nextId))),
      StoreAfter(comic, targets, post, store, now),
      nextId + |failed|,
      Posts(targets))
  }

  /** Some target with this key was posted to successfully. */
  predicate Written(comic: ComicData, targets: seq<string>, post: string -> Response, key: string) {
    exists i :: 0 <= i < |targets| && post(targets[i]).Ok() && BuildCacheKey(targets[i], comic) == key
  }

  /**
   * The store is written only after a successful post: a key is set to `now` exactly
   * when some target with that key succeeded, and every other entry is unchanged.
   */
  lemma {:induction false} StoreAfterWrites(comic: ComicData, targets: seq<string>, post: string -> Response, store: Store, now: int)
    ensures var r := StoreAfter(comic, targets, post, store, now);
            && (forall k :: Written(comic, targets, post, k) ==> k in r && r[k] == now)
            && (forall k :: !Written(comic, targets, post, k) ==> (k in r <==> k in store) && (k in store ==> r[k] == store[k]))
  {
    if targets != [] {
      var init := targets[..|targets| - 1];
      var last := targets[|targets| - 1];
      StoreAfterWrites(comic, init, post, store, now);
      forall k ensures Written(comic, targets, post, k) <==>
                       Written(comic, init, post, k) || (post(last).Ok() && BuildCacheKey(last, comic) == k) {
        if Written(comic, targets, post, k) {
          var i :| 0 <= i < |targets| && post(targets[i]).Ok() && BuildCacheKey(targets[i], comic) == k;
          if i < |init| {
            assert init[i] == targets[i];
          }
        }
        if Written(comic, init, post, k) {
          var i :| 0 <= i < |init| && post(init[i]).Ok() && BuildCacheKey(init[i], comic) == k;
          assert targets[i] == init[i];
        }
      }
    }
  }

  /** A target whose post failed keeps its stored entry: no other target shares its key. */
  lemma FailedTargetUnchanged(comic: ComicData, targets: seq<string>, post: string -> Response, store: Store, now: int, t: string)
    requires t in targets && !post(t).Ok()
    ensures var key := BuildCacheKey(t, comic);
            var r := StoreAfter(comic, targets, post, store, now);
            (key in r <==> key in store) && (key in store ==> r[key] == store[key])
  {
    StoreAfterWrites(comic, targets, post, store, now);
  }

  /** A target is failed exactly when its post did not come back ok. */
  lemma {:induction false} FailedTargetsAreFailures(targets: seq<string>, post: string -> Response)
    ensures forall t :: t in FailedTargets(targets, post) <==> t in targets && !post(t).Ok()
    ensures (forall t :: t in targets ==> post(t).Ok()) <==> FailedTargets(targets, post) == []
  {
    if targets != [] {
      var init := targets[..|targets| - 1];
      FailedTargetsAreFailures(init, post);
      assert targets == init + [targets[|targets| - 1]];
    }
  }

  /**
   * `sendUpdate(url)`: one post; on success the target's key is set to `now`, on failure
   * a new `NotifierError` object is thrown and the store is left alone.
   */
  method SendUpdate(comic: ComicData, url: string, post: string -> Response, store: Store, now: int, id: nat)
    returns (settled: Settled, store': Store)
    ensures post(url).Ok() ==> settled == Fulfilled && store' == store[BuildCacheKey(url, comic) := now]
    ensures !post(url).Ok() ==>
              && settled == Rejected(Other(id, ComicError(NotifierError, comic, FailedDetail(url, post(url)))))
              && store' == store
  {
    var response := post(url);
    if !response.Ok() {
      return Rejected(Other(id, ComicError(NotifierError, comic, FailedDetail(url, response)))), store;
    }
    settled, store' := Fulfilled, store[BuildCacheKey(url, comic) := now];
  }

  /**
   * `sendUpdates`: posts to every target in turn, writes the store after each success,
   * collects one error per failure and then throws them together.
   */
  method SendUpdates(comic: ComicData, targets: seq<string>, post: string -> Response, store: Store, now: int, nextId: nat)
    returns (r: Run)
    ensures r == DeliveryOf(comic, targets, post, store, now, nextId)
  {
    var results: seq<Settled> := [];
    var current := store;
    var id := nextId;
    var effects: seq<Effect> := [];
    for i := 0 to |targets|
      invariant current == StoreAfter(comic, targets[..i], post, store, now)
      invariant Rejections(results) == FailureErrors(comic, FailedTargets(targets[..i], post), post, nextId)
      invariant id == nextId + |FailedTargets(targets[..i], post)|
      invariant effects == Posts(targets[..i])
    {
      var url := targets[i];
      effects := effects + [Post(url)];
      var settled, written := SendUpdate(comic, url, post, current, now, id);
      DeliveryAdvance(comic, targets, i, post, store, now, nextId, results, current, settled, written);
      current := written;
      if settled.Rejected? {
        id := id + 1;
      }
      results := results + [settled];
    }
    assert targets[..|targets|] == targets;
    var thrown := CollectFailures(comic, FailedTargets(targets, post), post, nextId, results);
    r := Run(if thrown.Some? then Rejected(thrown.value) else Fulfilled, current, id, effects);
  }

  /**
   * The collector of `sendUpdates`: the settled results are added to a new collector,
   * which throws them as one array when there is any.
   */
  method CollectFailures(comic: ComicData, failed: seq<string>, post: string -> Response, nextId: nat, results: seq<Settled>)
    returns (thrown: Option<Value>)
    requires Rejections(results) == FailureErrors(comic, failed, post, nextId)
    ensures thrown == if |failed| == 0 then None else Some(Iter(FailureErrors(comic, failed, post, nextId)))
  {
    var errors := new ErrorCollector();
    errors.AddSettled(results);
    CollectedFailures(comic, failed, post, nextId);
    thrown := errors.AssertEmpty();
  }

  /** One more target: how the store, the failures and the effects grow. */
  lemma DeliveryStep(comic: ComicData, targets: seq<string>, i: nat, post: string -> Response, store: Store, now: int)
    requires i < |targets|
    ensures StoreAfter(comic, targets[..i + 1], post, store, now) ==
            if post(targets[i]).Ok() then StoreAfter(comic, targets[..i], post, store, now)[BuildCacheKey(targets[i], comic) := now]
            else StoreAfter(comic, targets[..i], post, store, now)
    ensures FailedTargets(targets[..i + 1], post) ==
            FailedTargets(targets[..i], post) + if post(targets[i]).Ok() then [] else [targets[i]]
    ensures Posts(targets[..i + 1]) == Posts(targets[..i]) + [Post(targets[i])]
  {
    assert targets[..i + 1][..i] == targets[..i];
  }

  /**
   * One more settled post: the store, the rejections and the effects are those of one
   * more target.
   */
  lemma DeliveryAdvance(comic: ComicData, targets: seq<string>, i: nat, post: string -> Response, store: Store, now: int,
                        nextId: nat, results: seq<Settled>, current: Store, settled: Settled, current': Store)
    requires i < |targets|
    requires Rejections(results) == FailureErrors(comic, FailedTargets(targets[..i], post), post, nextId)
    requires current == StoreAfter(comic, targets[..i], post, store, now)
    requires post(targets[i]).Ok() ==> settled == Fulfilled && current' == current[BuildCacheKey(targets[i], comic) := now]
    requires !post(targets[i]).Ok() ==>
               && settled == Rejected(Other(nextId + |FailedTargets(targets[..i], post)|,
                                            ComicError(NotifierError, comic, FailedDetail(targets[i], post(targets[i])))))
               && current' == current
    ensures Rejections(results + [settled]) == FailureErrors(comic, FailedTargets(targets[..i + 1], post), post, nextId)
    ensures |FailedTargets(targets[..i + 1], post)| == |FailedTargets(targets[..i], post)| + if settled.Rejected? then 1 else 0
    ensures current' == StoreAfter(comic, targets[..i + 1], post, store, now)
    ensures Posts(targets[..i + 1]) == Posts(targets[..i]) + [Post(targets[i])]
  {
    DeliveryStep(comic, targets, i, post, store, now);
    if settled.Rejected? {
      FailureErrorsAppend(comic, FailedTargets(targets[..i], post), targets[i], post, nextId);
    }
    RejectionsAppend(results, settled);
  }

  lemma FailureErrorsAppend(comic: ComicData, failed: seq<string>, url: string, post: string -> Response, nextId: nat)
    ensures FailureErrors(comic, failed + [url], post, nextId) ==
            FailureErrors(comic, failed, post, nextId) + [Other(nextId + |failed|, ComicError(NotifierError, comic, FailedDetail(url, post(url))))]
  {
    var a := FailureErrors(comic, failed + [url], post, nextId);
    var b := FailureErrors(comic, failed, post, nextId) + [Other(nextId + |failed|, ComicError(NotifierError, comic, FailedDetail(url, post(url))))];
    assert |a| == |b|;
    forall k | 0 <= k < |a| ensures a[k] == b[k] {
      if k < |failed| {
        assert (failed + [url])[k] == failed[k];
      }
    }
  }

  lemma RejectionsAppend(settled: seq<Settled>, x: Settled)
    ensures Rejections(settled + [x]) == Rejections(settled) + if x.Rejected? then [x.reason] else []
  {
    assert (settled + [x])[..|settled|] == settled;
  }

  /** Collecting fresh error objects into an empty collector keeps them all, in order. */
  lemma CollectedFailures(comic: ComicData, failed: seq<string>, post: string -> Response, nextId: nat)
    ensures AddedAll([], FailureErrors(comic, failed, post, nextId)) == FailureErrors(comic, failed, post, nextId)
  {
    var reasons := FailureErrors(comic, failed, post, nextId);
    FlatErrors(reasons, nextId, nextId + |failed|);
    FreshIdsNoDup([], reasons, nextId, nextId + |failed|);
    assert [] + reasons == reasons;
    AddedAllFresh([], reasons);
  }

  /** Error objects are not iterable, so they flatten to themselves. */
  lemma FlatErrors(es: seq<Value>, lo: nat, hi: nat)
    requires IdsIn(es, lo, hi)
    ensures FlattenOnce(es) == es
  {
    FlattenOnceOfSingles(es);
  }

  /** What `send` settles to. */
  function SendOf(n: Notifier, post: string -> Response, decodeXml: string -> string, toIso: int -> string,
                  store: Store, now: int, nextId: nat): Run
  {
    if |n.targets| == 0 then
      Run(Fulfilled, store, nextId, [Log(ComicError(NotifierError, n.comic, "no webhooks to send").message)])
    else
      var embeds := EmbedsOf(n, decodeXml, toIso);
      if embeds.Failure? then Run(Rejected(Other(nextId, embeds.error)), store, nextId + 1, [])
      else DeliveryOf(n.comic, n.targets, post, store, now, nextId)
  }

  /** `send()`: with no targets it logs once and resolves; otherwise it builds the embeds and delivers them. */
  method Send(n: Notifier, post: string -> Response, decodeXml: string -> string, toIso: int -> string,
              store: Store, now: int, nextId: nat) returns (r: Run)
    ensures r == SendOf(n, post, decodeXml, toIso, store, now, nextId)
  {
    if |n.targets| == 0 {
      return Run(Fulfilled, store, nextId, [Log(ComicError(NotifierError, n.comic, "no webhooks to send").message)]);
    }
    var embeds := EmbedsOf(n, decodeXml, toIso);
    if embeds.Failure? {
      return Run(Rejected(Other(nextId, embeds.error)), store, nextId + 1, []);
    }
    r := SendUpdates(n.comic, n.targets, post, store, now, nextId);
  }

  /** With no targets, `send` posts nothing, writes nothing, logs one line and resolves. */
  lemma NoTargetsNoPost(n: Notifier, post: string -> Response, decodeXml: string -> string, toIso: int -> string,
                        store: Store, now: int, nextId: nat)
    requires n.targets == []
    ensures var r := SendOf(n, post, decodeXml, toIso, store, now, nextId);
            r.outcome == Fulfilled && r.store == store && |r.effects| == 1 && r.effects[0].Log?
  {
  }

  /**
   * After all targets settle, `send` resolves exactly when every post succeeded, and
   * otherwise throws an array holding exactly one `NotifierError` per failed target, in
   * target order, each naming its target.
   */
  lemma DeliveryRejectsPerFailure(comic: ComicData, targets: seq<string>, post: string -> Response, store: Store, now: int, nextId: nat)
    ensures var r := DeliveryOf(comic, targets, post, store, now, nextId);
            var failed := FailedTargets(targets, post);
            && (r.outcome.Fulfilled? <==> forall t :: t in targets ==> post(t).Ok())
            && (r.outcome.Rejected? ==>
                  && r.outcome.reason.Iter?
                  && |r.outcome.reason.items| == |failed|
                  && forall i :: 0 <= i < |failed| ==>
                       && failed[i] in targets && !post(failed[i]).Ok()
                       && r.outcome.reason.items[i].Other?
                       && r.outcome.reason.items[i].info.kind == NotifierError
                       && r.outcome.reason.items[i].info ==
                            ComicError(NotifierError, comic, FailedDetail(failed[i], post(failed[i]))))
  {
    FailedTargetsAreFailures(targets, post);
    var failed := FailedTargets(targets, post);
    assert forall i :: 0 <= i < |failed| ==> failed[i] in failed;
  }

  /** `send` posts to the notifier's targets and nowhere else. */
  lemma SendPostsTargets(n: Notifier, post: string -> Response, decodeXml: string -> string, toIso: int -> string,
                         store: Store, now: int, nextId: nat)
    ensures var r := SendOf(n, post, decodeXml, toIso, store, now, nextId);
            forall i :: 0 <= i < |r.effects| && r.effects[i].Post? ==> r.effects[i].url in n.targets
  {
    var r := SendOf(n, post, decodeXml, toIso, store, now, nextId);
    if |n.targets| != 0 && EmbedsOf(n, decodeXml, toIso).Success? {
      assert r.effects == Posts(n.targets);
    }
  }

  /** Some effect is a post, answered ok, to a webhook whose cache key is `key`. */
  predicate PostedOk(effects: seq<Effect>, post: string -> Response, comic: ComicData, key: string) {
    exists i :: 0 <= i < |effects| && effects[i].Post? && post(effects[i].url).Ok() && BuildCacheKey(effects[i].url, comic) == key
  }

  lemma PostedOkAfter(prefix: seq<Effect>, effects: seq<Effect>, post: string -> Response, comic: ComicData, key: string)
    requires PostedOk(effects, post, comic, key)
    ensures PostedOk(prefix + effects, post, comic, key)
  {
    var j :| 0 <= j < |effects| && effects[j].Post? && post(effects[j].url).Ok() && BuildCacheKey(effects[j].url, comic) == key;
    assert (prefix + effects)[|prefix| + j] == effects[j];
  }

  /**
   * `send` changes the store only through successful posts: an entry that differs
   * afterwards holds `now` and belongs to a target that was posted to and answered ok.
   */
  lemma SendStoreWrites(n: Notifier, post: string -> Response, decodeXml: string -> string, toIso: int -> string,
                        store: Store, now: int, nextId: nat)
    ensures var r := SendOf(n, post, decodeXml, toIso, store, now, nextId);
            && (forall k :: k in r.store && (k !in store || r.store[k] != store[k]) ==>
                  r.store[k] == now && PostedOk(r.effects, post, n.comic, k))
            && (forall k :: k in store ==> k in r.store)
  {
    var r := SendOf(n, post, decodeXml, toIso, store, now, nextId);
    if |n.targets| != 0 && EmbedsOf(n, decodeXml, toIso).Success? {
      StoreAfterWrites(n.comic, n.targets, post, store, now);
      forall k | k in r.store && (k !in store || r.store[k] != store[k]) ensures PostedOk(r.effects, post, n.comic, k) {
        var j :| 0 <= j < |n.targets| && post(n.targets[j]).Ok() && BuildCacheKey(n.targets[j], n.comic) == k;
        assert r.effects[j] == Post(n.targets[j]);
      }
    }
  }
}
