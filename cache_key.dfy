/** src/utils/buildCacheKey.ts: the key-value store key for one (feed, webhook) pair. */
module CacheKeys {
  import opened Strings
  import opened Schema

  /** `${comic.rssUrl}|${url}` */
  function BuildCacheKey(url: string, comic: ComicData): (key: string)
    ensures StartsWith(key, comic.rssUrl + "|")
    ensures |key| == |comic.rssUrl| + 1 + |url| && key[|comic.rssUrl| + 1..] == url
  {
    var key := comic.rssUrl + "|" + url;
    assert key[..|comic.rssUrl| + 1] == comic.rssUrl + "|";
    key
  }

  /** The key depends on the feed URL and the webhook URL only. */
  lemma KeyIgnoresOtherFields(url: string, c1: ComicData, c2: ComicData)
    requires c1.rssUrl == c2.rssUrl
    ensures BuildCacheKey(url, c1) == BuildCacheKey(url, c2)
  {
  }

  /** For one comic, distinct webhooks never share a cache entry. */
  lemma DistinctWebhooksDistinctKeys(comic: ComicData, u1: string, u2: string)
    requires u1 != u2
    ensures BuildCacheKey(u1, comic) != BuildCacheKey(u2, comic)
  {
  }

  /** The index of the first `|` in `s`, if any. */
  function FirstBar(s: string): (i: nat)
    ensures i <= |s|
    ensures forall k :: 0 <= k < i ==> s[k] != '|'
    ensures i < |s| ==> s[i] == '|'
  {
    if s == [] then 0 else if s[0] == '|' then 0 else 1 + FirstBar(s[1..])
  }

  /**
   * Across comics, keys are unique per (feed, webhook) pair as long as neither feed URL
   * contains `|`: the first `|` of the key then ends the feed URL.
   */
  lemma {:induction false} KeysInjectiveWithoutBar(u1: string, c1: ComicData, u2: string, c2: ComicData)
    requires '|' !in c1.rssUrl && '|' !in c2.rssUrl
    requires BuildCacheKey(u1, c1) == BuildCacheKey(u2, c2)
    ensures c1.rssUrl == c2.rssUrl && u1 == u2
  {
    var key := BuildCacheKey(u1, c1);
    var r1, r2 := c1.rssUrl, c2.rssUrl;
    assert key == r1 + "|" + u1 && key == r2 + "|" + u2;
    BarAt(r1, u1);
    BarAt(r2, u2);
    assert key[..|r1|] == r1 && key[..|r2|] == r2;
  }

  lemma BarAt(r: string, u: string)
    requires '|' !in r
    ensures FirstBar(r + "|" + u) == |r|
  {
    var key := r + "|" + u;
    var i := FirstBar(key);
    assert key[|r|] == '|';
    assert forall k :: 0 <= k < |r| ==> key[k] == r[k];
  }

  /** With a `|` in a feed URL, two different (feed, webhook) pairs share one key. */
  lemma KeysCollideWithBar()
    ensures BuildCacheKey("h", ComicData(Wrappers.None, "img", "A", "f|g", []))
         == BuildCacheKey("g|h", ComicData(Wrappers.None, "img", "B", "f", []))
  {
    assert "f|g" + "|" + "h" == "f" + "|" + "g|h";
  }
}
