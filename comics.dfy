/**
 * src/comic/Comics.ts: the set of comics read from the store's index, the errors met
 * while reading it, and processing every comic with their failures merged into those
 * errors. The set holds one new object per valid entry, so it is the sequence of
 * their data in index order.
 */
module Comics {
  import opened Wrappers
  import opened Schema
  import opened ComicErrors
  import opened ErrorCollectors
  import opened Notifiers
  import opened Http
  import Comic

  /** The runs of every comic, in order, each starting from the state the previous one left. */
  datatype Batch = Batch(outcomes: seq<Settled>, store: Store, nextId: nat, effects: seq<Effect>)

  /** `Comic.fromIndexItem` applied to each entry of the index, in order. */
  function ParseResults(items: seq<Json>, isUrl: string -> bool, prettify: Json -> string)
    : (rs: seq<Result<ComicData, ErrorInfo>>)
    ensures |rs| == |items|
  {
    if items == [] then []
    else ParseResults(items[..|items| - 1], isUrl, prettify) + [Comic.FromIndexItem(items[|items| - 1], isUrl, prettify)]
  }

  /** The comics of the accepted entries, in order. */
  function Successes(rs: seq<Result<ComicData, ErrorInfo>>): seq<ComicData> {
    if rs == [] then []
    else
      var last := rs[|rs| - 1];
      Successes(rs[..|rs| - 1]) + if last.Success? then [last.value] else []
  }

  /** One new error object per rejected entry, in order, with identities counted from `nextId`. */
  function Failures(rs: seq<Result<ComicData, ErrorInfo>>, nextId: nat): seq<Value> {
    if rs == [] then []
    else
      var last := rs[|rs| - 1];
      var before := Failures(rs[..|rs| - 1], nextId);
      before + if last.Failure? then [Other(nextId + |before|, last.error)] else []
  }

  lemma {:induction false} ParseResultsAt(items: seq<Json>, isUrl: string -> bool, prettify: Json -> string)
    ensures forall k :: 0 <= k < |items| ==> ParseResults(items, isUrl, prettify)[k] == Comic.FromIndexItem(items[k], isUrl, prettify)
  {
    if items != [] {
      var init := items[..|items| - 1];
      ParseResultsAt(init, isUrl, prettify);
      assert forall k :: 0 <= k < |init| ==> items[k] == init[k];
    }
  }

  /**
   * Every result is either a comic or an error, never both; the errors are new objects
   * with increasing identities from `nextId`.
   */
  lemma {:induction false} ResultsPartition(rs: seq<Result<ComicData, ErrorInfo>>, nextId: nat)
    ensures |Successes(rs)| + |Failures(rs, nextId)| == |rs|
    ensures forall c :: c in Successes(rs) ==> Success(c) in rs
    ensures forall e :: e in Failures(rs, nextId) ==> e.Other? && Failure(e.info) in rs
    ensures (forall k :: 0 <= k < |rs| ==> rs[k].Success?) <==> Failures(rs, nextId) == []
  {
    if rs != [] {
      var init := rs[..|rs| - 1];
      ResultsPartition(init, nextId);
      assert rs == init + [rs[|rs| - 1]];
      var f := Failures(rs, nextId);
      var g := Failures(init, nextId);
      assert forall k :: 0 <= k < |g| ==> f[k] == g[k];
    }
  }

  /** The errors are new objects with increasing identities from `nextId`. */
  lemma {:induction false} FailureIds(rs: seq<Result<ComicData, ErrorInfo>>, nextId: nat)
    ensures IdsIn(Failures(rs, nextId), nextId, nextId + |Failures(rs, nextId)|)
  {
    if rs != [] {
      var init := rs[..|rs| - 1];
      FailureIds(init, nextId);
      var f := Failures(rs, nextId);
      var g := Failures(init, nextId);
      assert f[..|g|] == g;
      assert forall k :: 0 <= k < |g| ==> f[k] == g[k];
    }
  }

  /** One more result: where it goes, and that collecting its error appends it. */
  lemma ResultStep(rs: seq<Result<ComicData, ErrorInfo>>, r: Result<ComicData, ErrorInfo>, nextId: nat, id: nat)
    requires id == nextId + |Failures(rs, nextId)|
    ensures Successes(rs + [r]) == Successes(rs) + if r.Success? then [r.value] else []
    ensures r.Success? ==> Failures(rs + [r], nextId) == Failures(rs, nextId)
    ensures r.Failure? ==> Failures(rs + [r], nextId) == Added(Failures(rs, nextId), Other(id, r.error))
    ensures r.Failure? ==> |Failures(rs + [r], nextId)| == |Failures(rs, nextId)| + 1
  {
    assert (rs + [r])[..|rs|] == rs;
    if r.Failure? {
      var es := Failures(rs, nextId);
      FailureIds(rs, nextId);
      assert Other(id, r.error) !in es;
      AddSingle(es, Other(id, r.error));
    }
  }

  lemma ParseResultsStep(items: seq<Json>, i: nat, isUrl: string -> bool, prettify: Json -> string)
    requires i < |items|
    ensures ParseResults(items[..i + 1], isUrl, prettify) == ParseResults(items[..i], isUrl, prettify) + [Comic.FromIndexItem(items[i], isUrl, prettify)]
  {
    assert items[..i + 1][..i] == items[..i];
  }

  /**
   * Reading an index: every entry becomes a comic or an error, each accepted comic is
   * valid, and each error names an entry the schema rejects.
   */
  lemma IndexPartition(items: seq<Json>, isUrl: string -> bool, prettify: Json -> string, nextId: nat)
    ensures var rs := ParseResults(items, isUrl, prettify);
            && |Successes(rs)| + |Failures(rs, nextId)| == |items|
            && (forall c :: c in Successes(rs) ==> ValidComicData(c, isUrl))
            && (forall e :: e in Failures(rs, nextId) ==>
                  e.Other? && exists j :: j in items && !IsComicData(j, isUrl) && e.info == PlainErrorOf("error parsing index item: " + prettify(j)))
  {
    var rs := ParseResults(items, isUrl, prettify);
    ParseResultsAt(items, isUrl, prettify);
    ResultsPartition(rs, nextId);
    forall c | c in Successes(rs) ensures ValidComicData(c, isUrl) {
      var k :| 0 <= k < |rs| && rs[k] == Success(c);
    }
    forall e | e in Failures(rs, nextId)
      ensures e.Other? && exists j :: j in items && !IsComicData(j, isUrl) && e.info == PlainErrorOf("error parsing index item: " + prettify(j))
    {
      var k :| 0 <= k < |rs| && rs[k] == Failure(e.info);
      assert items[k] in items;
    }
  }

  /** An index yields no errors exactly when the schema accepts every entry. */
  lemma IndexValidIffNoErrors(items: seq<Json>, isUrl: string -> bool, prettify: Json -> string, nextId: nat)
    ensures (forall j :: j in items ==> IsComicData(j, isUrl)) <==>
            Failures(ParseResults(items, isUrl, prettify), nextId) == []
  {
    var rs := ParseResults(items, isUrl, prettify);
    ParseResultsAt(items, isUrl, prettify);
    ResultsPartition(rs, nextId);
    if forall j :: j in items ==> IsComicData(j, isUrl) {
      forall k | 0 <= k < |rs| ensures rs[k].Success? {
        assert items[k] in items;
      }
    }
    if Failures(rs, nextId) == [] {
      forall j | j in items ensures IsComicData(j, isUrl) {
        var k :| 0 <= k < |items| && items[k] == j;
        assert rs[k].Success?;
      }
    }
  }

  /**
   * Gathering a batch's rejections into a new collector and adding that collector to
   * `errors` appends each collected error once, when their identities are new.
   */
  lemma MergeCollected(before: seq<Value>, outcomes: seq<Settled>, lo: nat, hi: nat)
    requires NoDup(before) && IdsBelow(before, lo) && lo <= hi && IdsIn(Collected(outcomes), lo, hi)
    ensures Added(before, Iter(AddedAll([], Rejections(outcomes)))) == before + Collected(outcomes)
    ensures NoDup(before + Collected(outcomes)) && IdsBelow(before + Collected(outcomes), hi)
  {
    var found := Collected(outcomes);
    FreshIdsNoDup([], found, lo, hi);
    assert [] + found == found;
    AddedAllFresh([], Rejections(outcomes));
    FreshIdsNoDup(before, found, lo, hi);
    InsertedAllFresh(before, found);
    IdsBelowConcat(before, found, lo, hi);
  }

  /** The thrown errors of a batch, flattened once as a collector adds them. */
  function Collected(outcomes: seq<Settled>): seq<Value> {
    FlattenOnce(Rejections(outcomes))
  }

  lemma CollectedAppend(outcomes: seq<Settled>, o: Settled)
    ensures Collected(outcomes + [o]) == Collected(outcomes) + Comic.Thrown(o)
  {
    RejectionsAppend(outcomes, o);
    var extra := if o.Rejected? then [o.reason] else [];
    FlattenOnceAppend(Rejections(outcomes), extra);
    if o.Rejected? {
      assert FlattenOnce([o.reason]) == FlattenOnce([o.reason][..0]) + Flat(o.reason);
    }
  }

  /** `Promise.allSettled` over `comic.process` for every comic, run one after the other. */
  function ProcessAllOf(comics: seq<ComicData>, w: Comic.World, store: Store, nextId: nat): (b: Batch)
    ensures |b.outcomes| == |comics|
  {
    if comics == [] then Batch([], store, nextId, [])
    else
      var before := ProcessAllOf(comics[..|comics| - 1], w, store, nextId);
      var r := Comic.ProcessOf(comics[|comics| - 1], w, before.store, before.nextId);
      Batch(before.outcomes + [r.outcome], r.store, r.nextId, before.effects + r.effects)
  }

  /** Every comic of the batch resolved. */
  predicate AllFulfilled(outcomes: seq<Settled>) {
    forall i :: 0 <= i < |outcomes| ==> outcomes[i].Fulfilled?
  }

  lemma AllFulfilledAppend(outcomes: seq<Settled>, o: Settled)
    ensures AllFulfilled(outcomes + [o]) <==> AllFulfilled(outcomes) && o.Fulfilled?
  {
    var all := outcomes + [o];
    assert all[|outcomes|] == o;
    assert forall i :: 0 <= i < |outcomes| ==> all[i] == outcomes[i];
  }

  /**
   * Every identity the batch allocates is collected once, in increasing order, and
   * nothing is collected exactly when every comic resolved.
   */
  lemma {:induction false} ProcessAllIds(comics: seq<ComicData>, w: Comic.World, store: Store, nextId: nat)
    ensures var b := ProcessAllOf(comics, w, store, nextId);
            && nextId <= b.nextId
            && IdsIn(Collected(b.outcomes), nextId, b.nextId)
            && |Collected(b.outcomes)| == b.nextId - nextId
            && (AllFulfilled(b.outcomes) <==> b.nextId == nextId)
  {
    if comics != [] {
      var init := comics[..|comics| - 1];
      var before := ProcessAllOf(init, w, store, nextId);
      ProcessAllIds(init, w, store, nextId);
      var r := Comic.ProcessOf(comics[|comics| - 1], w, before.store, before.nextId);
      Comic.ProcessIds(comics[|comics| - 1], w, before.store, before.nextId);
      CollectedAppend(before.outcomes, r.outcome);
      IdsInConcat(Collected(before.outcomes), Comic.Thrown(r.outcome), nextId, before.nextId, r.nextId);
      AllFulfilledAppend(before.outcomes, r.outcome);
    }
  }

  lemma ProcessAllStep(comics: seq<ComicData>, i: nat, w: Comic.World, store: Store, nextId: nat)
    requires i < |comics|
    ensures var before := ProcessAllOf(comics[..i], w, store, nextId);
            var r := Comic.ProcessOf(comics[i], w, before.store, before.nextId);
            ProcessAllOf(comics[..i + 1], w, store, nextId) ==
              Batch(before.outcomes + [r.outcome], r.store, r.nextId, before.effects + r.effects)
  {
    assert comics[..i + 1][..i] == comics[..i];
  }

  /** The comics of an index and the errors collected while reading it. */
  class Comics {
    const comics: seq<ComicData>
    const errors: ErrorCollector

    ghost predicate Valid()
      reads this, errors
    {
      errors.Valid()
    }

    constructor (errors: ErrorCollector, comics: seq<ComicData>)
      requires errors.Valid()
      ensures this.errors == errors && this.comics == comics
      ensures Valid()
    {
      this.errors := errors;
      this.comics := comics;
    }

    /**
     * `Comics.fromIndex()`: a plain `Error` when the stored index is not an array;
     * otherwise every entry is parsed, a rejected entry's error is collected and parsing
     * goes on with the next one.
     */
    static method FromIndex(index: Json, isUrl: string -> bool, prettify: Json -> string, nextId: nat)
      returns (r: Result<Comics, ErrorInfo>, nextId': nat)
      ensures !IsComicIndex(index) ==> r == Failure(PlainErrorOf("error parsing index: " + prettify(index))) && nextId' == nextId
      ensures IsComicIndex(index) ==>
                var rs := ParseResults(index.items, isUrl, prettify);
                && r.Success? && fresh(r.value) && fresh(r.value.errors) && r.value.Valid()
                && r.value.comics == Successes(rs)
                && r.value.errors.items == Failures(rs, nextId)
                && nextId' == nextId + |Failures(rs, nextId)|
    {
      if !IsComicIndex(index) {
        return Failure(PlainErrorOf("error parsing index: " + prettify(index))), nextId;
      }
      var items := index.items;
      var comics: seq<ComicData> := [];
      var errors := new ErrorCollector();
      var id := nextId;
      ghost var rs: seq<Result<ComicData, ErrorInfo>> := [];
      for i := 0 to |items|
        invariant fresh(errors) && errors.Valid()
        invariant rs == ParseResults(items[..i], isUrl, prettify)
        invariant comics == Successes(rs)
        invariant errors.items == Failures(rs, nextId)
        invariant id == nextId + |Failures(rs, nextId)|
      {
        ParseResultsStep(items, i, isUrl, prettify);
        var parsed := Comic.FromIndexItem(items[i], isUrl, prettify);
        ResultStep(rs, parsed, nextId, id);
        if parsed.Success? {
          comics := comics + [parsed.value];
        } else {
          ghost var before := errors.items;
          errors.Add(Other(id, parsed.error));
          assert errors.items == Added(before, Other(id, parsed.error));
          id := id + 1;
        }
        rs := rs + [parsed];
      }
      assert items[..|items|] == items;
      var result := new Comics(errors, comics);
      r, nextId' := Success(result), id;
    }

    /**
     * `comics.process()`: every comic is processed, their rejections are gathered into a
     * new collector, and that collector is added to `errors`, so each thrown error
     * object, or each member of a thrown collection, is appended once.
     */
    method Process(w: Comic.World, store: Store, nextId: nat) returns (store': Store, nextId': nat, effects: seq<Effect>)
      requires Valid() && IdsBelow(errors.items, nextId)
      modifies errors
      ensures Valid() && IdsBelow(errors.items, nextId')
      ensures var b := ProcessAllOf(comics, w, store, nextId);
              && errors.items == old(errors.items) + Collected(b.outcomes)
              && store' == b.store && nextId' == b.nextId && effects == b.effects
    {
      var results: seq<Settled> := [];
      var current := store;
      var id := nextId;
      effects := [];
      for i := 0 to |comics|
        invariant ProcessAllOf(comics[..i], w, store, nextId) == Batch(results, current, id, effects)
        invariant errors.items == old(errors.items)
      {
        ProcessAllStep(comics, i, w, store, nextId);
        var r := Comic.Process(comics[i], w, current, id);
        results, current, id, effects := results + [r.outcome], r.store, r.nextId, effects + r.effects;
      }
      assert comics[..|comics|] == comics;
      ProcessAllIds(comics, w, store, nextId);
      assert IdsIn(Collected(results), nextId, id) && nextId <= id;
      var collected := new ErrorCollector();
      collected.AddSettled(results);
      MergeCollected(errors.items, results, nextId, id);
      errors.Add(Iter(collected.items));
      store', nextId' := current, id;
    }
  }

  /** Processing adds one error per identity it allocated, and none when every comic resolves. */
  lemma ProcessAddsOnePerFailure(comics: seq<ComicData>, w: Comic.World, store: Store, nextId: nat, before: seq<Value>)
    ensures var b := ProcessAllOf(comics, w, store, nextId);
            && |before + Collected(b.outcomes)| == |before| + (b.nextId - nextId)
            && (AllFulfilled(b.outcomes) <==> before + Collected(b.outcomes) == before)
  {
    ProcessAllIds(comics, w, store, nextId);
  }
}
