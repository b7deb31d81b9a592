/**
 * src/comic/Page.ts: one streaming pass over a comic page that captures the image URI and
 * the alt text. HTMLRewriter is modelled by `rewrite`, which turns a body and the
 * registered selectors into the stream of handler calls, in document order; entity
 * decoding (`decodeHTML`) is a parameter.
 */
module Pages {
  import opened Wrappers
  import opened Strings
  import opened Schema
  import opened ComicErrors
  import opened Http

  /** One call of the shared handler: `element(el)` with its `src` and `title` attributes, or `text(chunk)`. */
  datatype Event = Element(src: Option<string>, title: Option<string>) | TextChunk(text: string)

  /** The data a page yields: the image URI and, optionally, the alt text. */
  datatype PageData = PageData(imageUri: string, altText: Option<string>)

  /** A character `String.prototype.trim` removes: ECMAScript white space and line terminators. */
  predicate IsTrimmable(c: char) {
    || ('\U{9}' <= c <= '\U{D}')          // tab, line feed, vertical tab, form feed, carriage return
    || c == ' ' || c == '\U{A0}' || c == '\U{1680}'
    || ('\U{2000}' <= c <= '\U{200A}')
    || c == '\U{2028}' || c == '\U{2029}' || c == '\U{202F}' || c == '\U{205F}' || c == '\U{3000}'
    || c == '\U{FEFF}'
  }

  function TrimStart(s: string): (r: string)
    ensures |r| <= |s| && r == s[|s| - |r|..]
    ensures forall k :: 0 <= k < |s| - |r| ==> IsTrimmable(s[k])
    ensures r != [] ==> !IsTrimmable(r[0])
  {
    if s != [] && IsTrimmable(s[0]) then TrimStart(s[1..]) else s
  }

  function TrimEnd(s: string): (r: string)
    ensures |r| <= |s| && r == s[..|r|]
    ensures forall k :: |r| <= k < |s| ==> IsTrimmable(s[k])
    ensures r != [] ==> !IsTrimmable(r[|r| - 1])
  {
    if s != [] && IsTrimmable(s[|s| - 1]) then TrimEnd(s[..|s| - 1]) else s
  }

  /** `r` is `s` with `i` white-space characters cut from the front and the rest of the white space at the end. */
  predicate IsTrimOf(s: string, r: string, i: nat) {
    && i + |r| <= |s| && r == s[i..i + |r|]
    && (forall k :: 0 <= k < i ==> IsTrimmable(s[k]))
    && (forall k :: i + |r| <= k < |s| ==> IsTrimmable(s[k]))
  }

  /**
   * `s.trim()`: `s` with the white space at both ends removed, and nothing else; the
   * result neither starts nor ends with white space.
   */
  function Trim(s: string): (r: string)
    ensures r != [] ==> !IsTrimmable(r[0]) && !IsTrimmable(r[|r| - 1])
    ensures |r| <= |s|
    ensures exists i :: IsTrimOf(s, r, i)
  {
    var front := TrimStart(s);
    var r := TrimEnd(front);
    assert r != [] ==> r[0] == front[0];
    TrimmedSlice(s, front, r);
    r
  }

  /** The two trims together cut white space off the ends of `s` and keep a slice of it. */
  lemma TrimmedSlice(s: string, front: string, r: string)
    requires front == TrimStart(s) && r == TrimEnd(front)
    ensures IsTrimOf(s, r, |s| - |front|)
  {
    CutEnds(s, front, r, IsTrimmable);
  }

  /**
   * Cutting characters that satisfy `p` off the front of `s` and then off the back of
   * what is left keeps a slice of `s`, and everything cut satisfies `p`.
   */
  lemma CutEnds(s: string, front: string, r: string, p: char -> bool)
    requires |front| <= |s| && front == s[|s| - |front|..]
    requires |r| <= |front| && r == front[..|r|]
    requires forall k :: 0 <= k < |s| - |front| ==> p(s[k])
    requires forall k :: |r| <= k < |front| ==> p(front[k])
    ensures var i := |s| - |front|;
            && r == s[i..i + |r|]
            && (forall k :: 0 <= k < i ==> p(s[k]))
            && (forall k :: i + |r| <= k < |s| ==> p(s[k]))
  {
    var i := |s| - |front|;
    assert s[i..][..|r|] == s[i..i + |r|];
    forall k | i + |r| <= k < |s| ensures p(s[k]) {
      assert s[k] == front[k - i];
    }
  }

  /**
   * `Page.normalizeAltText(input)`: nothing for a missing or empty input; otherwise the
   * decoded, trimmed text, unless that is empty.
   */
  function NormalizeAltText(input: Option<string>, decodeHtml: string -> string): (r: Option<string>)
    ensures r.Some? <==> input.Some? && input.value != "" && Trim(decodeHtml(input.value)) != ""
    ensures r.Some? ==> r.value == Trim(decodeHtml(input.value))
    ensures r.Some? ==> r.value != "" && !IsTrimmable(r.value[0]) && !IsTrimmable(r.value[|r.value| - 1])
  {
    if input.None? || input.value == "" then None
    else
      var parsed := Trim(decodeHtml(input.value));
      if parsed == "" then None else Some(parsed)
  }

  /**
   * The selectors the handler is registered on: the image selector, then the alt
   * selector only when one is configured (and non-empty).
   */
  function Selectors(comic: ComicData): (r: seq<string>)
    ensures |r| >= 1 && r[0] == comic.imageSelector
    ensures |r| == 2 <==> comic.altSelector.Some? && comic.altSelector.value != ""
    ensures |r| <= 2 && (|r| == 2 ==> r[1] == comic.altSelector.value)
  {
    [comic.imageSelector] + if comic.altSelector.Some? && comic.altSelector.value != "" then [comic.altSelector.value] else []
  }

  /** The image URI one handler call offers: a non-empty `src` of an element. */
  function ImageOf(e: Event): Option<string> {
    if e.Element? && e.src.Some? && e.src.value != "" then e.src else None
  }

  /** The alt text one handler call offers: an element's normalised `title`, or a normalised text chunk. */
  function AltOf(e: Event, decodeHtml: string -> string): Option<string> {
    match e
    case Element(_, title) => NormalizeAltText(title, decodeHtml)
    case TextChunk(text) => NormalizeAltText(Some(text), decodeHtml)
  }

  function Images(stream: seq<Event>): (os: seq<Option<string>>)
    ensures |os| == |stream| && forall i :: 0 <= i < |stream| ==> os[i] == ImageOf(stream[i])
  {
    seq(|stream|, i requires 0 <= i < |stream| => ImageOf(stream[i]))
  }

  function Alts(stream: seq<Event>, decodeHtml: string -> string): (os: seq<Option<string>>)
    ensures |os| == |stream| && forall i :: 0 <= i < |stream| ==> os[i] == AltOf(stream[i], decodeHtml)
  {
    seq(|stream|, i requires 0 <= i < |stream| => AltOf(stream[i], decodeHtml))
  }

  /** The first defined value of a sequence, read front to back. */
  function FirstDefined(os: seq<Option<string>>): Option<string> {
    if os == [] then None else if os[0].Some? then os[0] else FirstDefined(os[1..])
  }

  /** `FirstDefined` is the value at the least index holding one, and nothing when there is none. */
  lemma {:induction false} FirstDefinedIsFirst(os: seq<Option<string>>)
    ensures FirstDefined(os).None? <==> forall i :: 0 <= i < |os| ==> os[i].None?
    ensures FirstDefined(os).Some? ==>
              exists i :: 0 <= i < |os| && os[i] == FirstDefined(os) && forall j :: 0 <= j < i ==> os[j].None?
  {
    if os != [] && os[0].None? {
      var rest := os[1..];
      FirstDefinedIsFirst(rest);
      assert forall i :: 1 <= i < |os| ==> os[i] == rest[i - 1];
      if FirstDefined(rest).Some? {
        var i :| 0 <= i < |rest| && rest[i] == FirstDefined(rest) && forall j :: 0 <= j < i ==> rest[j].None?;
        assert os[i + 1] == FirstDefined(os);
        assert forall j :: 0 <= j < i + 1 ==> os[j].None? by {
          forall j | 0 <= j < i + 1 ensures os[j].None? {
            if j > 0 { assert os[j] == rest[j - 1]; }
          }
        }
      }
    }
  }

  /**
   * The `fromResponse` handler run over a stream: `imageUri` and `altText` start
   * undefined and each takes the first value offered, never to be overwritten.
   */
  method Scan(stream: seq<Event>, decodeHtml: string -> string) returns (imageUri: Option<string>, altText: Option<string>)
    ensures imageUri == FirstDefined(Images(stream))
    ensures altText == FirstDefined(Alts(stream, decodeHtml))
  {
    imageUri, altText := None, None;
    var i := 0;
    while i < |stream|
      invariant 0 <= i <= |stream|
      invariant FirstDefined(Images(stream)) == if imageUri.Some? then imageUri else FirstDefined(Images(stream)[i..])
      invariant FirstDefined(Alts(stream, decodeHtml)) == if altText.Some? then altText else FirstDefined(Alts(stream, decodeHtml)[i..])
    {
      assert Images(stream)[i..][1..] == Images(stream)[i + 1..];
      assert Alts(stream, decodeHtml)[i..][1..] == Alts(stream, decodeHtml)[i + 1..];
      match stream[i] {
        case Element(src, title) =>
          if imageUri.None? {
            if src.Some? && src.value != "" {
              imageUri := src;
            }
          }
          if altText.None? {
            var t := NormalizeAltText(title, decodeHtml);
            if t.Some? {
              altText := t;
            }
          }
        case TextChunk(text) =>
          if altText.None? {
            var t := NormalizeAltText(Some(text), decodeHtml);
            if t.Some? {
              altText := t;
            }
          }
      }
      i := i + 1;
    }
  }

  /** What `Page.fromResponse` yields: `PageError` for a non-ok response or a page without an image. */
  function PageOf(response: Response, comic: ComicData, rewrite: (string, seq<string>) -> seq<Event>, decodeHtml: string -> string)
    : (r: Result<PageData, ErrorInfo>)
    ensures !response.Ok() ==> r == Failure(ComicError(PageError, comic, ReceivedDetail(response)))
    ensures response.Ok() ==>
              var stream := rewrite(response.body, Selectors(comic));
              && (r.Success? <==> exists i :: 0 <= i < |stream| && ImageOf(stream[i]).Some?)
              && (r.Failure? ==> r.error == ComicError(PageError, comic, "could not find image URI"))
  {
    if !response.Ok() then Failure(ComicError(PageError, comic, ReceivedDetail(response)))
    else
      var stream := rewrite(response.body, Selectors(comic));
      FirstDefinedIsFirst(Images(stream));
      var image := FirstDefined(Images(stream));
      if image.None? then Failure(ComicError(PageError, comic, "could not find image URI"))
      else Success(PageData(image.value, FirstDefined(Alts(stream, decodeHtml))))
  }

  /** `Page.fromResponse(response, comic, rewriter)`: the status check, then one scan of the body. */
  method FromResponse(response: Response, comic: ComicData, rewrite: (string, seq<string>) -> seq<Event>, decodeHtml: string -> string)
    returns (r: Result<PageData, ErrorInfo>)
    ensures r == PageOf(response, comic, rewrite, decodeHtml)
  {
    if !response.Ok() {
      return Failure(ComicError(PageError, comic, ReceivedDetail(response)));
    }
    var imageUri, altText := Scan(rewrite(response.body, Selectors(comic)), decodeHtml);
    if imageUri.None? {
      return Failure(ComicError(PageError, comic, "could not find image URI"));
    }
    r := Success(PageData(imageUri.value, altText));
  }

  /**
   * A page that is produced has the first non-empty `src` of the stream as its image,
   * and an alt text, when it has one, that is non-empty and trimmed and is the first one
   * any handler call offered.
   */
  lemma PageIsFirstMatch(response: Response, comic: ComicData, rewrite: (string, seq<string>) -> seq<Event>, decodeHtml: string -> string)
    requires PageOf(response, comic, rewrite, decodeHtml).Success?
    ensures var page := PageOf(response, comic, rewrite, decodeHtml).value;
            var stream := rewrite(response.body, Selectors(comic));
            && page.imageUri != ""
            && (exists i :: (0 <= i < |stream| && ImageOf(stream[i]) == Some(page.imageUri) &&
                             forall j :: 0 <= j < i ==> ImageOf(stream[j]).None?))
            && (page.altText.Some? ==> page.altText.value != "" && !IsTrimmable(page.altText.value[0]))
            && (page.altText.Some? ==>
                  exists i :: (0 <= i < |stream| && AltOf(stream[i], decodeHtml) == page.altText &&
                               forall j :: 0 <= j < i ==> AltOf(stream[j], decodeHtml).None?))
            && (page.altText.None? ==> forall i :: 0 <= i < |stream| ==> AltOf(stream[i], decodeHtml).None?)
  {
    var stream := rewrite(response.body, Selectors(comic));
    var images, alts := Images(stream), Alts(stream, decodeHtml);
    FirstDefinedIsFirst(images);
    FirstDefinedIsFirst(alts);
    var i :| 0 <= i < |images| && images[i] == FirstDefined(images) && forall j :: 0 <= j < i ==> images[j].None?;
    assert ImageOf(stream[i]) == images[i];
  }
}
