/**
 * The configuration schemas of src/schema.ts as predicates over JSON values.
 * URL syntax (zod's `z.url()`) is a parameter `isUrl`.
 */
module Schema {
  import opened Wrappers

  /** A JSON value as read from the key-value store (numbers are not needed beyond their kind). */
  datatype Json =
    | Null
    | Bool(b: bool)
    | Num(n: int)
    | Str(s: string)
    | Arr(items: seq<Json>)
    | Obj(fields: map<string, Json>)

  /** A validated comic configuration (`ComicData`); `altSelector` is optional. */
  datatype ComicData = ComicData(
    altSelector: Option<string>,
    imageSelector: string,
    name: string,
    rssUrl: string,
    webhookUrls: seq<string>)

  /** The keys `comicDataSchema` knows; any other key of an index item is stripped. */
  const SchemaKeys: set<string> := {"altSelector", "imageSelector", "name", "rssUrl", "webhookUrls"}

  /** `comicIndexSchema = z.unknown().array()`: any array, whatever its elements. */
  predicate IsComicIndex(j: Json) {
    j.Arr?
  }

  /** `z.string().min(1)` */
  predicate IsNonEmptyString(j: Json) {
    j.Str? && |j.s| >= 1
  }

  /** `z.url()` */
  predicate IsUrlString(j: Json, isUrl: string -> bool) {
    j.Str? && isUrl(j.s)
  }

  /** `z.url().array()`: a possibly empty array of URL strings. */
  predicate IsUrlArray(j: Json, isUrl: string -> bool) {
    j.Arr? && forall i :: 0 <= i < |j.items| ==> IsUrlString(j.items[i], isUrl)
  }

  /** `comicDataSchema`: an object whose known fields have the required shapes. */
  predicate IsComicData(j: Json, isUrl: string -> bool) {
    && j.Obj?
    && ("altSelector" in j.fields ==> IsNonEmptyString(j.fields["altSelector"]))
    && "imageSelector" in j.fields && IsNonEmptyString(j.fields["imageSelector"])
    && "name" in j.fields && IsNonEmptyString(j.fields["name"])
    && "rssUrl" in j.fields && IsUrlString(j.fields["rssUrl"], isUrl)
    && "webhookUrls" in j.fields && IsUrlArray(j.fields["webhookUrls"], isUrl)
  }

  /** The constraints of `comicDataSchema`, stated on the parsed record. */
  predicate ValidComicData(c: ComicData, isUrl: string -> bool) {
    && (c.altSelector.Some? ==> |c.altSelector.value| >= 1)
    && |c.imageSelector| >= 1
    && |c.name| >= 1
    && isUrl(c.rssUrl)
    && forall i :: 0 <= i < |c.webhookUrls| ==> isUrl(c.webhookUrls[i])
  }

  function StringArray(ws: seq<string>): (j: Json)
    ensures j.Arr? && |j.items| == |ws|
    ensures forall i :: 0 <= i < |ws| ==> j.items[i] == Str(ws[i])
  {
    Arr(seq(|ws|, i requires 0 <= i < |ws| => Str(ws[i])))
  }

  /** The JSON object a configuration is written as. */
  function ToJson(c: ComicData): Json {
    var required := map[
      "imageSelector" := Str(c.imageSelector),
      "name" := Str(c.name),
      "rssUrl" := Str(c.rssUrl),
      "webhookUrls" := StringArray(c.webhookUrls)];
    Obj(if c.altSelector.Some? then required["altSelector" := Str(c.altSelector.value)] else required)
  }

  /** `j` with every key the schema does not know removed (zod strips them). */
  function Stripped(j: Json): Json
    requires j.Obj?
  {
    Obj(map k | k in j.fields && k in SchemaKeys :: j.fields[k])
  }

  /**
   * `comicDataSchema.safeParse(item)`: the parsed record on success, None on failure.
   * A successful parse loses nothing but unknown keys: writing the record back gives
   * the item with those keys stripped.
   */
  function ParseComicData(j: Json, isUrl: string -> bool): (r: Option<ComicData>)
    ensures r.Some? <==> IsComicData(j, isUrl)
    ensures r.Some? ==> ValidComicData(r.value, isUrl) && ToJson(r.value) == Stripped(j)
  {
    if !IsComicData(j, isUrl) then None
    else
      var f := j.fields;
      var urls := f["webhookUrls"].items;
      var c := ComicData(
        if "altSelector" in f then Some(f["altSelector"].s) else None,
        f["imageSelector"].s,
        f["name"].s,
        f["rssUrl"].s,
        seq(|urls|, i requires 0 <= i < |urls| => urls[i].s));
      assert StringArray(c.webhookUrls) == f["webhookUrls"];
      assert ToJson(c).fields == Stripped(j).fields;
      Some(c)
  }

  /** Round trip: a configuration written as JSON parses back to itself exactly when it is valid. */
  lemma ParseToJson(c: ComicData, isUrl: string -> bool)
    ensures ParseComicData(ToJson(c), isUrl) == if ValidComicData(c, isUrl) then Some(c) else None
  {
    var j := ToJson(c);
    var w := StringArray(c.webhookUrls);
    assert j.fields["webhookUrls"] == w;
    if ValidComicData(c, isUrl) {
      assert IsComicData(j, isUrl);
      var r := ParseComicData(j, isUrl).value;
      assert r.webhookUrls == c.webhookUrls;
    }
  }

  /** An item without a `name` field (or whose name is not a non-empty string) is rejected. */
  lemma RequiresName(j: Json, isUrl: string -> bool)
    requires j.Obj? && ("name" !in j.fields || !IsNonEmptyString(j.fields["name"]))
    ensures ParseComicData(j, isUrl) == None
  {
  }
}
