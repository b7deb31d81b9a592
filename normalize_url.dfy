/** src/utils/normalizeUrl.ts: resolving protocol-relative and root-relative URLs against a reference. */
module Urls {
  import opened Strings

  /** The two parts of the parsed reference URL that are used. */
  datatype UrlRef = UrlRef(protocol: string, origin: string)

  /** The result of `normalizeUrl`, case by case on how the input starts. */
  function Normalized(input: string, ref: UrlRef): string {
    if StartsWith(input, "//") then
      var withProtocol := ref.protocol + input;
      if StartsWith(withProtocol, "/") then ref.origin + withProtocol else withProtocol
    else if StartsWith(input, "/") then ref.origin + input
    else input
  }

  /** `normalizeUrl(input, ref)`: `result` is reassigned in two guarded steps. */
  method NormalizeUrl(input: string, ref: UrlRef) returns (result: string)
    ensures result == Normalized(input, ref)
  {
    result := input;
    if StartsWith(result, "//") {
      result := ref.protocol + result;
    }
    if StartsWith(result, "/") {
      result := ref.origin + result;
    }
  }

  /** A reference as `new URL` yields it: the protocol (`https:`) is not empty and neither part starts with `/`. */
  predicate ParsedRef(ref: UrlRef) {
    |ref.protocol| > 0 && !StartsWith(ref.protocol, "/") && !StartsWith(ref.origin, "/")
  }

  /** A protocol-relative input takes the reference's protocol and no origin. */
  lemma ProtocolRelative(input: string, ref: UrlRef)
    requires ParsedRef(ref) && StartsWith(input, "//")
    ensures Normalized(input, ref) == ref.protocol + input
  {
    assert (ref.protocol + input)[..1] == ref.protocol[..1];
  }

  /** A root-relative input (one `/`, not two) takes the reference's origin. */
  lemma RootRelative(input: string, ref: UrlRef)
    requires StartsWith(input, "/") && !StartsWith(input, "//")
    ensures Normalized(input, ref) == ref.origin + input
  {
  }

  /** Anything not starting with `/` is returned unchanged. */
  lemma NotRelative(input: string, ref: UrlRef)
    requires !StartsWith(input, "/")
    ensures Normalized(input, ref) == input
  {
  }

  /** The normalised URL always ends with the original input. */
  lemma EndsWithInput(input: string, ref: UrlRef)
    ensures EndsWith(Normalized(input, ref), input)
  {
    if StartsWith(input, "//") {
      var p := ref.protocol + input;
      SuffixOfConcat(ref.protocol, input);
      if StartsWith(p, "/") {
        assert ref.origin + p == (ref.origin + ref.protocol) + input;
        SuffixOfConcat(ref.origin + ref.protocol, input);
      }
    } else if StartsWith(input, "/") {
      SuffixOfConcat(ref.origin, input);
    } else {
      SuffixOfConcat([], input);
      assert [] + input == input;
    }
  }

  /** Normalising twice is normalising once, for a reference whose parts do not start with `/`. */
  lemma Idempotent(input: string, ref: UrlRef)
    requires !StartsWith(ref.protocol, "/") && !StartsWith(ref.origin, "/")
    ensures Normalized(Normalized(input, ref), ref) == Normalized(input, ref)
  {
    var r := Normalized(input, ref);
    if StartsWith(input, "/") {
      if |ref.protocol| > 0 && StartsWith(input, "//") {
        assert r == ref.protocol + input;
        assert r[..1] == ref.protocol[..1];
        NotRelative(r, ref);
      } else if |ref.origin| > 0 {
        assert r == ref.origin + input || r == ref.origin + ref.protocol + input;
        assert r[..1] == ref.origin[..1];
        NotRelative(r, ref);
      } else {
        assert ref.origin == [];
        assert ref.protocol == [] || !StartsWith(input, "//");
        assert r == input;
      }
    } else {
      NotRelative(input, ref);
    }
  }
}
