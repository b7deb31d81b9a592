/**
 * src/utils/ErrorCollector.ts: a `Set` of unknown values that flattens one level of any
 * non-string iterable it is given. The set is modelled as an insertion-ordered sequence
 * without duplicates; an error object is `Other` with an identity, so two thrown
 * objects are never merged even when they carry the same message.
 */
module ErrorCollectors {
  import opened Wrappers
  import opened ComicErrors

  /** An `unknown` value: a string, an iterable (an array or a set) of values, or any other object. */
  datatype Value =
    | Str(s: string)
    | Iter(items: seq<Value>)
    | Other(id: nat, info: ErrorInfo)

  /** One element of `await Promise.allSettled(...)`. */
  datatype Settled = Fulfilled | Rejected(reason: Value)

  /** `isNonStringIterable`: strings and plain objects are not flattened, arrays and sets are. */
  predicate IsNonStringIterable(v: Value) {
    v.Iter?
  }

  predicate NoDup(s: seq<Value>) {
    forall i, j :: 0 <= i < j < |s| ==> s[i] != s[j]
  }

  /** `Set.prototype.add` on the insertion-ordered model. */
  function Inserted(s: seq<Value>, v: Value): (r: seq<Value>)
    ensures NoDup(s) ==> NoDup(r)
    ensures v in r && forall x :: x in r <==> x in s || x == v
    ensures |r| == if v in s then |s| else |s| + 1
    ensures r[..|s|] == s
  {
    if v in s then s else s + [v]
  }

  /** `super.add` of each element, in order. */
  function InsertedAll(s: seq<Value>, vs: seq<Value>): seq<Value> {
    if vs == [] then s else Inserted(InsertedAll(s, vs[..|vs| - 1]), vs[|vs| - 1])
  }

  /** The collection after `add(e)`. */
  function Added(s: seq<Value>, e: Value): seq<Value> {
    if IsNonStringIterable(e) then InsertedAll(s, e.items) else Inserted(s, e)
  }

  /** The collection after `add(e)` for each `e` of `es`, in order. */
  function AddedAll(s: seq<Value>, es: seq<Value>): seq<Value> {
    if es == [] then s else Added(AddedAll(s, es[..|es| - 1]), es[|es| - 1])
  }

  /** `settled.filter((item) => item.status === "rejected")`, as the reasons. */
  function Rejections(settled: seq<Settled>): seq<Value> {
    if settled == [] then []
    else
      var last := settled[|settled| - 1];
      Rejections(settled[..|settled| - 1]) + if last.Rejected? then [last.reason] else []
  }

  /** What `add(v)` hands to `super.add`: the elements of an iterable, or the value itself. */
  function Flat(v: Value): seq<Value> {
    if IsNonStringIterable(v) then v.items else [v]
  }

  /** The concatenation of `Flat` over a sequence of values. */
  function FlattenOnce(vs: seq<Value>): seq<Value> {
    if vs == [] then [] else FlattenOnce(vs[..|vs| - 1]) + Flat(vs[|vs| - 1])
  }

  /** Every value of `vs` is an error object with an identity in [lo, hi), in increasing order. */
  predicate IdsIn(vs: seq<Value>, lo: nat, hi: nat) {
    && (forall i :: 0 <= i < |vs| ==> vs[i].Other? && lo <= vs[i].id < hi)
    && (forall i, j :: 0 <= i < j < |vs| ==> vs[i].id < vs[j].id)
  }

  /** Every error object held directly in `s` was created before identity `n` was handed out. */
  predicate IdsBelow(s: seq<Value>, n: nat) {
    forall i :: 0 <= i < |s| ==> s[i].Other? ==> s[i].id < n
  }

  class ErrorCollector {
    /** The members of the set, in insertion order. */
    var items: seq<Value>

    ghost predicate Valid()
      reads this
    {
      NoDup(items)
    }

    constructor ()
      ensures Valid() && items == []
    {
      items := [];
    }

    /** `super.add(v)`: Set insertion. */
    method Insert(v: Value)
      requires Valid()
      modifies this
      ensures Valid() && items == Inserted(old(items), v)
    {
      if v !in items {
        items := items + [v];
      }
    }

    /** `add(e)`: one level of a non-string iterable is flattened into the set. */
    method Add(e: Value)
      requires Valid()
      modifies this
      ensures Valid() && items == Added(old(items), e)
    {
      if !IsNonStringIterable(e) {
        Insert(e);
        return;
      }
      for i := 0 to |e.items|
        invariant Valid()
        invariant items == InsertedAll(old(items), e.items[..i])
      {
        assert e.items[..i + 1][..i] == e.items[..i];
        Insert(e.items[i]);
      }
      assert e.items[..|e.items|] == e.items;
    }

    /** `addSettled(settled)`: `add` of each rejection reason, in order. */
    method AddSettled(settled: seq<Settled>)
      requires Valid()
      modifies this
      ensures Valid() && items == AddedAll(old(items), Rejections(settled))
    {
      var rejected := Rejections(settled);
      for i := 0 to |rejected|
        invariant Valid()
        invariant items == AddedAll(old(items), rejected[..i])
      {
        assert rejected[..i + 1][..i] == rejected[..i];
        Add(rejected[i]);
      }
      assert rejected[..|rejected|] == rejected;
    }

    /** `assertEmpty()`: throws the collected items as one array exactly when there are any. */
    method AssertEmpty() returns (thrown: Option<Value>)
      ensures thrown.Some? <==> |items| > 0
      ensures thrown.Some? ==> thrown.value == Iter(items)
    {
      if |items| > 0 {
        thrown := Some(Iter(items));
      } else {
        thrown := None;
      }
    }
  }

  /**
   * What `add` of a sequence of elements stores: the collection stays duplicate-free,
   * keeps its old items first, holds exactly the old items and the new elements, and
   * grows by at most the number of elements.
   */
  lemma {:induction false} InsertedAllContents(s: seq<Value>, vs: seq<Value>)
    ensures NoDup(s) ==> NoDup(InsertedAll(s, vs))
    ensures forall x :: x in InsertedAll(s, vs) <==> x in s || x in vs
    ensures |s| <= |InsertedAll(s, vs)| <= |s| + |vs|
    ensures InsertedAll(s, vs)[..|s|] == s
  {
    if vs != [] {
      var init := vs[..|vs| - 1];
      InsertedAllContents(s, init);
      assert vs == init + [vs[|vs| - 1]];
      var r := InsertedAll(s, init);
      assert InsertedAll(s, vs)[..|r|] == r;
      assert InsertedAll(s, vs)[..|s|] == r[..|s|];
    }
  }

  /** Elements that are all new and pairwise distinct are appended in order. */
  lemma {:induction false} InsertedAllFresh(s: seq<Value>, vs: seq<Value>)
    requires NoDup(s + vs)
    ensures InsertedAll(s, vs) == s + vs
  {
    if vs != [] {
      var init := vs[..|vs| - 1];
      var last := vs[|vs| - 1];
      assert s + vs == (s + init) + [last];
      assert NoDup(s + init) by {
        forall i, j | 0 <= i < j < |s + init| ensures (s + init)[i] != (s + init)[j] {
          assert (s + init)[i] == (s + vs)[i] && (s + init)[j] == (s + vs)[j];
        }
      }
      InsertedAllFresh(s, init);
      assert last !in s + init by {
        forall k | 0 <= k < |s + init| ensures (s + init)[k] != last {
          assert (s + init)[k] == (s + vs)[k] && last == (s + vs)[|s + vs| - 1];
        }
      }
    }
  }

  /** Elements already present change nothing. */
  lemma {:induction false} InsertedAllPresent(s: seq<Value>, vs: seq<Value>)
    requires forall x :: x in vs ==> x in s
    ensures InsertedAll(s, vs) == s
  {
    if vs != [] {
      InsertedAllPresent(s, vs[..|vs| - 1]);
      assert vs[|vs| - 1] in vs;
    }
  }

  /** A value that is not a non-string iterable (a string, an error) is stored as exactly that value. */
  lemma AddSingle(s: seq<Value>, e: Value)
    requires !IsNonStringIterable(e)
    ensures e in s ==> Added(s, e) == s
    ensures e !in s ==> Added(s, e) == s + [e] && |Added(s, e)| == |s| + 1
  {
  }

  /** A string is one item: none of its characters is stored on its own. */
  lemma {:induction false} StringNotSplit(s: seq<Value>, text: string, c: char)
    requires Str([c]) !in s && [c] != text
    ensures Str(text) in Added(s, Str(text)) && Str([c]) !in Added(s, Str(text))
  {
  }

  /**
   * Adding a non-string iterable stores each of its elements individually, and only one
   * level deep: an element that is itself iterable is stored whole.
   */
  lemma AddIterable(s: seq<Value>, items: seq<Value>)
    ensures forall x :: x in Added(s, Iter(items)) <==> x in s || x in items
    ensures NoDup(s) ==> NoDup(Added(s, Iter(items)))
    ensures |Added(s, Iter(items))| <= |s| + |items|
  {
    InsertedAllContents(s, items);
  }

  /** Set semantics: adding the same value twice is the same as adding it once. */
  lemma AddIdempotent(s: seq<Value>, e: Value)
    ensures Added(Added(s, e), e) == Added(s, e)
  {
    if IsNonStringIterable(e) {
      InsertedAllContents(s, e.items);
      InsertedAllPresent(Added(s, e), e.items);
    }
  }

  lemma {:induction false} FlattenOnceAppend(vs: seq<Value>, ws: seq<Value>)
    ensures FlattenOnce(vs + ws) == FlattenOnce(vs) + FlattenOnce(ws)
    decreases |ws|
  {
    if ws == [] {
      assert vs + ws == vs;
    } else {
      var init, last := ws[..|ws| - 1], ws[|ws| - 1];
      assert (vs + ws)[..|vs + ws| - 1] == vs + init;
      assert (vs + ws)[|vs + ws| - 1] == last;
      FlattenOnceAppend(vs, init);
      calc {
        FlattenOnce(vs + ws);
        FlattenOnce(vs + init) + Flat(last);
        (FlattenOnce(vs) + FlattenOnce(init)) + Flat(last);
        FlattenOnce(vs) + (FlattenOnce(init) + Flat(last));
        FlattenOnce(vs) + FlattenOnce(ws);
      }
    }
  }

  /**
   * `add` of several values when everything they flatten to is new and pairwise
   * distinct: the flattened values are appended in order.
   */
  lemma {:induction false} AddedAllFresh(s: seq<Value>, es: seq<Value>)
    requires NoDup(s + FlattenOnce(es))
    ensures AddedAll(s, es) == s + FlattenOnce(es)
  {
    if es != [] {
      var init := es[..|es| - 1];
      var last := es[|es| - 1];
      var f := FlattenOnce(init);
      assert s + FlattenOnce(es) == (s + f) + Flat(last);
      assert NoDup(s + f) by {
        forall i, j | 0 <= i < j < |s + f| ensures (s + f)[i] != (s + f)[j] {
          assert (s + f)[i] == (s + FlattenOnce(es))[i] && (s + f)[j] == (s + FlattenOnce(es))[j];
        }
      }
      AddedAllFresh(s, init);
      if IsNonStringIterable(last) {
        InsertedAllFresh(s + f, last.items);
      } else {
        assert last !in s + f by {
          forall k | 0 <= k < |s + f| ensures (s + f)[k] != last {
            assert (s + f)[k] == (s + FlattenOnce(es))[k];
            assert last == (s + FlattenOnce(es))[|s + FlattenOnce(es)| - 1];
          }
        }
      }
    }
  }

  /** `addSettled` grows the collection by at most the number of values the rejections flatten to. */
  lemma {:induction false} AddedAllBound(s: seq<Value>, es: seq<Value>)
    ensures |s| <= |AddedAll(s, es)| <= |s| + |FlattenOnce(es)|
  {
    if es != [] {
      var init := es[..|es| - 1];
      var last := es[|es| - 1];
      AddedAllBound(s, init);
      if IsNonStringIterable(last) {
        InsertedAllContents(AddedAll(s, init), last.items);
      }
    }
  }

  /** Rejection reasons that are not iterables flatten to themselves. */
  lemma {:induction false} FlattenOnceOfSingles(es: seq<Value>)
    requires forall i :: 0 <= i < |es| ==> !IsNonStringIterable(es[i])
    ensures FlattenOnce(es) == es
  {
    if es != [] {
      FlattenOnceOfSingles(es[..|es| - 1]);
    }
  }

  /** Only rejected outcomes are collected: their number bounds the reasons found. */
  lemma {:induction false} RejectionsCount(settled: seq<Settled>)
    ensures |Rejections(settled)| <= |settled|
    ensures (forall i :: 0 <= i < |settled| ==> settled[i].Fulfilled?) ==> Rejections(settled) == []
    ensures forall v :: v in Rejections(settled) <==> Rejected(v) in settled
  {
    if settled != [] {
      var init := settled[..|settled| - 1];
      RejectionsCount(init);
      assert settled == init + [settled[|settled| - 1]];
    }
  }

  /** `addSettled` on a batch where nothing was rejected changes nothing. */
  lemma AddSettledAllFulfilled(s: seq<Value>, settled: seq<Settled>)
    requires forall i :: 0 <= i < |settled| ==> settled[i].Fulfilled?
    ensures AddedAll(s, Rejections(settled)) == s
  {
    RejectionsCount(settled);
  }

  /**
   * When no rejection reason is iterable, `addSettled` grows the collection by at most
   * the number of rejections.
   */
  lemma AddSettledSinglesBound(s: seq<Value>, settled: seq<Settled>)
    requires forall v :: Rejected(v) in settled ==> !IsNonStringIterable(v)
    ensures |AddedAll(s, Rejections(settled))| <= |s| + |Rejections(settled)|
  {
    var es := Rejections(settled);
    RejectionsCount(settled);
    assert forall i :: 0 <= i < |es| ==> !IsNonStringIterable(es[i]) by {
      forall i | 0 <= i < |es| ensures !IsNonStringIterable(es[i]) {
        assert es[i] in es;
      }
    }
    FlattenOnceOfSingles(es);
    AddedAllBound(s, es);
  }

  /** Error objects with increasing identities are pairwise distinct and new to an older collection. */
  lemma FreshIdsNoDup(s: seq<Value>, vs: seq<Value>, lo: nat, hi: nat)
    requires NoDup(s) && IdsBelow(s, lo) && IdsIn(vs, lo, hi)
    ensures NoDup(s + vs)
  {
    forall i, j | 0 <= i < j < |s + vs| ensures (s + vs)[i] != (s + vs)[j] {
      if j >= |s| {
        assert (s + vs)[j] == vs[j - |s|];
        if i >= |s| {
          assert (s + vs)[i] == vs[i - |s|];
        }
      }
    }
  }

  /** Identity ranges handed out one after the other give one increasing range. */
  lemma IdsInConcat(a: seq<Value>, b: seq<Value>, lo: nat, mid: nat, hi: nat)
    requires lo <= mid <= hi && IdsIn(a, lo, mid) && IdsIn(b, mid, hi)
    ensures IdsIn(a + b, lo, hi)
  {
    forall i, j | 0 <= i < j < |a + b| ensures (a + b)[i].id < (a + b)[j].id {
      if i < |a| && j >= |a| {
        assert (a + b)[i] == a[i] && (a + b)[j] == b[j - |a|];
      } else if i >= |a| {
        assert (a + b)[i] == b[i - |a|] && (a + b)[j] == b[j - |a|];
      }
    }
  }

  /** A collection below one bound stays below a larger one, and gains fresh values below the new bound. */
  lemma IdsBelowConcat(s: seq<Value>, vs: seq<Value>, lo: nat, hi: nat)
    requires lo <= hi && IdsBelow(s, lo) && IdsIn(vs, lo, hi)
    ensures IdsBelow(s + vs, hi)
  {
    forall i | 0 <= i < |s + vs| && (s + vs)[i].Other? ensures (s + vs)[i].id < hi {
      if i >= |s| {
        assert (s + vs)[i] == vs[i - |s|];
      }
    }
  }
}
