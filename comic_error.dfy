/**
 * The error classes of the core. `ComicError` (src/comic/ComicError.ts) prefixes every
 * message with the owning comic's name; `FeedError`, `PageError` and `NotifierError`
 * subclass it without adding anything, so they differ only in their kind. A plain
 * `Error` is what the index parsing throws.
 */
module ComicErrors {
  import opened Strings
  import opened Schema
  import opened Wrappers

  datatype ErrorKind = PlainError | FeedError | PageError | NotifierError

  /** The subclasses of `ComicError`. */
  type ComicErrorKind = k: ErrorKind | k != PlainError witness FeedError

  /** The class and the message of a thrown error object (its identity is added where it is collected). */
  datatype ErrorInfo = ErrorInfo(kind: ErrorKind, message: string)

  /** `new FeedError(comic, detail)`, `new PageError(...)`, `new NotifierError(...)`. */
  function ComicError(kind: ComicErrorKind, comic: ComicData, detail: string): (e: ErrorInfo)
    ensures e.kind == kind
    ensures StartsWith(e.message, comic.name + ": ")
    ensures e.message[|comic.name| + 2..] == detail
  {
    var m := comic.name + ": " + detail;
    PrefixOfConcat(comic.name + ": ", detail);
    ErrorInfo(kind, m)
  }

  /** A plain `new Error(message)`. */
  function PlainErrorOf(message: string): (e: ErrorInfo)
    ensures e.kind == PlainError && e.message == message
  {
    ErrorInfo(PlainError, message)
  }

  /** Only the comic's name enters the message: configurations with the same name give the same error. */
  lemma OnlyNameMatters(kind: ComicErrorKind, c1: ComicData, c2: ComicData, detail: string)
    requires c1.name == c2.name
    ensures ComicError(kind, c1, detail) == ComicError(kind, c2, detail)
  {
  }

  /** For a fixed detail, distinct comic names give distinct messages. */
  lemma DistinctNamesDistinctMessages(kind: ComicErrorKind, c1: ComicData, c2: ComicData, detail: string)
    requires c1.name != c2.name
    ensures ComicError(kind, c1, detail).message != ComicError(kind, c2, detail).message
  {
    var m1, m2 := ComicError(kind, c1, detail).message, ComicError(kind, c2, detail).message;
    assert m1[..|c1.name|] == c1.name && |m1| == |c1.name| + 2 + |detail|;
    assert m2[..|c2.name|] == c2.name && |m2| == |c2.name| + 2 + |detail|;
  }

  /**
   * The format is not injective in the pair (name, detail): a name containing ": "
   * gives the same message as a shorter name with a longer detail.
   */
  lemma FormatIsAmbiguous()
    ensures ComicError(FeedError, ComicData(None, "img", "a: b", "u", []), "c")
         == ComicError(FeedError, ComicData(None, "img", "a", "u", []), "b: c")
  {
    assert "a: b" + ": " + "c" == "a" + ": " + "b: c";
  }
}
