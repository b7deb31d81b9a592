/**
 * src/comic/Feed.ts: resolving the latest item of a comic's RSS/Atom feed, with fallbacks.
 * The feed parser (htmlparser2's `parseFeed`), entity decoding (`decodeXML`) and
 * `Date.prototype.toISOString` are parameters; dates are integer timestamps.
 */
module Feeds {
  import opened Wrappers
  import opened Strings
  import opened Schema
  import opened ComicErrors
  import opened Http

  /** A parsed feed item; each field is optional in the parsed feed. */
  datatype RssItem = RssItem(title: Option<string>, link: Option<string>, pubDate: Option<int>)

  /** A parsed feed: optional title and last-updated date, and the items newest first. */
  datatype RssFeed = RssFeed(title: Option<string>, updated: Option<int>, items: seq<RssItem>)

  /** `Feed.fromResponse` without the object: the parsed content, or the `FeedError` it throws. */
  function ParseResponse(response: Response, comic: ComicData, parseFeed: string -> Option<RssFeed>)
    : (r: Result<RssFeed, ErrorInfo>)
    ensures r.Success? <==> response.Ok() && parseFeed(response.body).Some?
    ensures r.Success? ==> r.value == parseFeed(response.body).value
    ensures r.Failure? ==> r.error.kind == FeedError && StartsWith(r.error.message, comic.name + ": ")
    ensures !response.Ok() ==> r == Failure(ComicError(FeedError, comic, ReceivedDetail(response)))
    ensures response.Ok() && parseFeed(response.body).None? ==> r == Failure(ComicError(FeedError, comic, "could not parse feed"))
  {
    if !response.Ok() then Failure(ComicError(FeedError, comic, ReceivedDetail(response)))
    else
      var content := parseFeed(response.body);
      if content.None? then Failure(ComicError(FeedError, comic, "could not parse feed"))
      else Success(content.value)
  }

  /** `Feed.formatDateAsName(date)`: `date.toISOString().substring(0, 10)`, the `YYYY-MM-DD` part. */
  function FormatDateAsName(date: int, toIso: int -> string): (name: string)
    ensures StartsWith(toIso(date), name)
    ensures |name| == if |toIso(date)| < 10 then |toIso(date)| else 10
  {
    var iso := toIso(date);
    if |iso| < 10 then iso else iso[..10]
  }

  /** The `feedName` getter: the decoded feed title, or the comic's name when the feed has none. */
  function FeedNameOf(comic: ComicData, content: RssFeed, decodeXml: string -> string): (name: string)
    ensures content.title.None? ==> name == comic.name
    ensures content.title.Some? ==> name == decodeXml(content.title.value)
  {
    if content.title.None? then comic.name else decodeXml(content.title.value)
  }

  /** The `latest` getter: the first item, or `FeedError` "no items in feed". */
  function LatestOf(comic: ComicData, content: RssFeed): (r: Result<RssItem, ErrorInfo>)
    ensures r.Success? <==> |content.items| > 0
    ensures r.Success? ==> r.value == content.items[0]
    ensures r.Failure? ==> r.error == ComicError(FeedError, comic, "no items in feed")
  {
    if |content.items| == 0 then Failure(ComicError(FeedError, comic, "no items in feed"))
    else Success(content.items[0])
  }

  /**
   * The `dateUpdated` getter: the latest item's publication date, else the feed's
   * updated date, else `FeedError`; the item's date wins when both exist.
   */
  function DateUpdatedOf(comic: ComicData, content: RssFeed): (r: Result<int, ErrorInfo>)
    ensures LatestOf(comic, content).Failure? ==> r == Failure(LatestOf(comic, content).error)
    ensures |content.items| > 0 && content.items[0].pubDate.Some? ==> r == Success(content.items[0].pubDate.value)
    ensures |content.items| > 0 && content.items[0].pubDate.None? && content.updated.Some? ==> r == Success(content.updated.value)
    ensures |content.items| > 0 && content.items[0].pubDate.None? && content.updated.None? ==>
              r == Failure(ComicError(FeedError, comic, "could not determine when last updated"))
  {
    match LatestOf(comic, content)
    case Failure(e) => Failure(e)
    case Success(latest) =>
      if latest.pubDate.Some? then Success(latest.pubDate.value)
      else if content.updated.Some? then Success(content.updated.value)
      else Failure(ComicError(FeedError, comic, "could not determine when last updated"))
  }

  /** `if (title)`: present and not the empty string. */
  predicate Truthy(s: Option<string>) {
    s.Some? && s.value != ""
  }

  /**
   * The `pageName` getter: the latest item's decoded title when it is non-empty,
   * otherwise the date the feed was updated formatted as a name.
   */
  function PageNameOf(comic: ComicData, content: RssFeed, decodeXml: string -> string, toIso: int -> string)
    : (r: Result<string, ErrorInfo>)
    ensures LatestOf(comic, content).Failure? ==> r == Failure(LatestOf(comic, content).error)
    ensures LatestOf(comic, content).Success? && Truthy(content.items[0].title) ==>
              r == Success(decodeXml(content.items[0].title.value))
    ensures LatestOf(comic, content).Success? && !Truthy(content.items[0].title) ==>
              r == match DateUpdatedOf(comic, content)
                   case Success(d) => Success(FormatDateAsName(d, toIso))
                   case Failure(e) => Failure(e)
  {
    match LatestOf(comic, content)
    case Failure(e) => Failure(e)
    case Success(latest) =>
      if Truthy(latest.title) then Success(decodeXml(latest.title.value))
      else
        match DateUpdatedOf(comic, content)
        case Failure(e) => Failure(e)
        case Success(d) => Success(FormatDateAsName(d, toIso))
  }

  /** The `pageLink` getter: the latest item's link as it is (not decoded), or `FeedError` when it is empty. */
  function PageLinkOf(comic: ComicData, content: RssFeed): (r: Result<string, ErrorInfo>)
    ensures LatestOf(comic, content).Failure? ==> r == Failure(LatestOf(comic, content).error)
    ensures r.Success? <==> |content.items| > 0 && Truthy(content.items[0].link)
    ensures r.Success? ==> r.value == content.items[0].link.value && r.value != ""
    ensures |content.items| > 0 && !Truthy(content.items[0].link) ==>
              r == Failure(ComicError(FeedError, comic, "latest page URL missing"))
  {
    match LatestOf(comic, content)
    case Failure(e) => Failure(e)
    case Success(latest) =>
      if !Truthy(latest.link) then Failure(ComicError(FeedError, comic, "latest page URL missing"))
      else Success(latest.link.value)
  }

  /**
   * A fetched feed. `feedName`, `pageName` and `pageLink` are the functions above applied
   * to `comic` and `content`; `latest` and `dateUpdated` memoise their value in a private
   * field on first success.
   */
  class Feed {
    const comic: ComicData
    const content: RssFeed
    var latestMemo: Option<RssItem>
    var dateUpdatedMemo: Option<int>

    /**
     * A memoised value is always the value the getter computes, and `dateUpdated` is
     * only memoised after `latest` has been.
     */
    ghost predicate Valid()
      reads this
    {
      && (latestMemo.Some? ==> LatestOf(comic, content) == Success(latestMemo.value))
      && (dateUpdatedMemo.Some? ==> DateUpdatedOf(comic, content) == Success(dateUpdatedMemo.value))
      && (dateUpdatedMemo.Some? ==> latestMemo.Some?)
    }

    constructor (comic: ComicData, content: RssFeed)
      ensures Valid() && this.comic == comic && this.content == content
      ensures latestMemo.None? && dateUpdatedMemo.None?
    {
      this.comic := comic;
      this.content := content;
      latestMemo := None;
      dateUpdatedMemo := None;
    }

    /** `Feed.fromResponse(response, comic)`: `FeedError` for a non-ok response or an unparseable body. */
    static method FromResponse(response: Response, comic: ComicData, parseFeed: string -> Option<RssFeed>)
      returns (r: Result<Feed, ErrorInfo>)
      ensures r.Failure? ==> ParseResponse(response, comic, parseFeed) == Failure(r.error)
      ensures r.Success? ==> ParseResponse(response, comic, parseFeed) == Success(r.value.content)
      ensures r.Success? ==> fresh(r.value) && r.value.Valid() && r.value.comic == comic
      ensures r.Success? ==> r.value.latestMemo.None? && r.value.dateUpdatedMemo.None?
    {
      var parsed := ParseResponse(response, comic, parseFeed);
      if parsed.Failure? {
        return Failure(parsed.error);
      }
      var feed := new Feed(comic, parsed.value);
      r := Success(feed);
    }

    /** The `latest` getter: computed once, then read from `#latest`. */
    method Latest() returns (r: Result<RssItem, ErrorInfo>)
      requires Valid()
      modifies this`latestMemo
      ensures Valid()
      ensures r == LatestOf(comic, content)
      ensures old(latestMemo).Some? ==> r == Success(old(latestMemo).value) && latestMemo == old(latestMemo)
      ensures latestMemo == if r.Success? then Some(r.value) else old(latestMemo)
    {
      if latestMemo.None? {
        if |content.items| == 0 {
          return Failure(ComicError(FeedError, comic, "no items in feed"));
        }
        latestMemo := Some(content.items[0]);
      }
      r := Success(latestMemo.value);
    }

    /** The `dateUpdated` getter: computed once (reading `latest` first), then read from `#dateUpdated`. */
    method DateUpdated() returns (r: Result<int, ErrorInfo>)
      requires Valid()
      modifies this`latestMemo, this`dateUpdatedMemo
      ensures Valid()
      ensures r == DateUpdatedOf(comic, content)
      ensures old(dateUpdatedMemo).Some? ==> r == Success(old(dateUpdatedMemo).value) && dateUpdatedMemo == old(dateUpdatedMemo)
      ensures dateUpdatedMemo == if r.Success? then Some(r.value) else old(dateUpdatedMemo)
      ensures latestMemo == if LatestOf(comic, content).Success? then Some(LatestOf(comic, content).value) else old(latestMemo)
    {
      if dateUpdatedMemo.None? {
        var latest := Latest();
        if latest.Failure? {
          return Failure(latest.error);
        }
        if latest.value.pubDate.None? {
          if content.updated.None? {
            return Failure(ComicError(FeedError, comic, "could not determine when last updated"));
          }
          dateUpdatedMemo := Some(content.updated.value);
        } else {
          dateUpdatedMemo := Some(latest.value.pubDate.value);
        }
      }
      r := Success(dateUpdatedMemo.value);
    }

    /** The `pageName` getter: reads `latest`, and `dateUpdated` only when the title is empty. */
    method PageName(decodeXml: string -> string, toIso: int -> string) returns (r: Result<string, ErrorInfo>)
      requires Valid()
      modifies this`latestMemo, this`dateUpdatedMemo
      ensures Valid()
      ensures r == PageNameOf(comic, content, decodeXml, toIso)
      ensures latestMemo == if LatestOf(comic, content).Success? then Some(LatestOf(comic, content).value) else old(latestMemo)
      ensures dateUpdatedMemo ==
                if LatestOf(comic, content).Success? && !Truthy(content.items[0].title) && DateUpdatedOf(comic, content).Success?
                then Some(DateUpdatedOf(comic, content).value)
                else old(dateUpdatedMemo)
    {
      var latest := Latest();
      if latest.Failure? {
        return Failure(latest.error);
      }
      if Truthy(latest.value.title) {
        return Success(decodeXml(latest.value.title.value));
      }
      var date := DateUpdated();
      if date.Failure? {
        return Failure(date.error);
      }
      r := Success(FormatDateAsName(date.value, toIso));
    }

    /** The `pageLink` getter: reads `latest` and throws when its link is empty. */
    method PageLink() returns (r: Result<string, ErrorInfo>)
      requires Valid()
      modifies this`latestMemo
      ensures Valid()
      ensures r == PageLinkOf(comic, content)
      ensures latestMemo == if LatestOf(comic, content).Success? then Some(LatestOf(comic, content).value) else old(latestMemo)
    {
      var latest := Latest();
      if latest.Failure? {
        return Failure(latest.error);
      }
      if !Truthy(latest.value.link) {
        return Failure(ComicError(FeedError, comic, "latest page URL missing"));
      }
      r := Success(latest.value.link.value);
    }
  }
}
