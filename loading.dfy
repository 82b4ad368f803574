/**
 * What the two populating loops share: the ids `str(0)`, `str(1)`, ...,
 * and the effect of adding a corpus to an empty collection in
 * 1000-row slices.
 */
module Loading {
  import opened Text
  import opened Batching
  import opened Collaborators

  /**
   * `[str(i) for i in range(n)]`: `n` ids, no id used twice, and each id
   * reads back as its index.
   */
  function Ids(n: nat): (r: seq<string>)
    ensures |r| == n && forall i :: 0 <= i < n ==> r[i] == NatToString(i)
    ensures Distinct(r)
    ensures forall i :: 0 <= i < n ==> ParseNat(r[i]) == i
  {
    seq(n, i requires 0 <= i < n => NatToString(i))
  }

  /** Every slice of a sequence without repetitions is without repetitions. */
  lemma DistinctSlice<T>(s: seq<T>, i: nat)
    requires Distinct(s) && i <= |s|
    ensures Distinct(Slice(s, i))
  {
    var t := Slice(s, i);
    forall a, b | 0 <= a < b < |t| ensures t[a] != t[b] {
      assert t[a] == s[i + a] && t[b] == s[i + b];
    }
  }

  /** The entries of an empty collection after adding these parallel sequences. */
  function Loaded(ids: seq<string>, docs: seq<string>, metas: seq<Metadata>, embs: seq<Embedding>): map<string, Entry>
    requires |ids| == |docs| == |metas| == |embs|
  {
    Inserted(map[], Items(ids, docs, metas, embs))
  }

  /** The slice at `i` of the rows is the rows of the slices at `i` of the parallel sequences. */
  lemma ItemsSlice(ids: seq<string>, docs: seq<string>, metas: seq<Metadata>, embs: seq<Embedding>, i: nat)
    requires |ids| == |docs| == |metas| == |embs| && i <= |ids|
    ensures Slice(Items(ids, docs, metas, embs), i) == Items(Slice(ids, i), Slice(docs, i), Slice(metas, i), Slice(embs, i))
  {
  }

  /**
   * One loop step: adding the slices at `i` to the entries that hold the
   * first `i` rows gives the entries that hold the first `i + 1000` rows
   * (or all rows, when fewer are left).
   */
  lemma BatchStep(m: map<string, Entry>, ids: seq<string>, docs: seq<string>, metas: seq<Metadata>, embs: seq<Embedding>, i: nat)
    requires |ids| == |docs| == |metas| == |embs| && i < |ids|
    ensures Inserted(Inserted(m, Items(ids, docs, metas, embs)[..i]), Items(Slice(ids, i), Slice(docs, i), Slice(metas, i), Slice(embs, i)))
         == Inserted(m, Items(ids, docs, metas, embs)[..Min(i + BatchSize, |ids|)])
  {
    var items := Items(ids, docs, metas, embs);
    ItemsSlice(ids, docs, metas, embs, i);
    InsertedAppend(m, items[..i], Slice(items, i));
    PrefixThenSlice(items, i);
  }

  /** `entries` is `start` after adding the first `i` rows (all of them, when there are fewer). */
  ghost predicate HoldsFirst(entries: map<string, Entry>, start: map<string, Entry>, items: seq<Item>, i: nat) {
    entries == Inserted(start, items[..Min(i, |items|)])
  }

  /** The rows of `Ids(n)` and parallel sequences have distinct ids, the `i`-th being `str(i)`. */
  lemma IdRows(docs: seq<string>, metas: seq<Metadata>, embs: seq<Embedding>)
    requires |docs| == |metas| == |embs|
    ensures DistinctIds(Items(Ids(|docs|), docs, metas, embs))
    ensures forall i :: 0 <= i < |docs| ==> Items(Ids(|docs|), docs, metas, embs)[i].id == NatToString(i)
  {
  }

  /**
   * Loading `n` rows keyed `str(0)` ... `str(n-1)` into an empty collection
   * stores exactly those `n` ids.
   */
  lemma LoadedKeys(docs: seq<string>, metas: seq<Metadata>, embs: seq<Embedding>)
    requires |docs| == |metas| == |embs|
    ensures |Loaded(Ids(|docs|), docs, metas, embs)| == |docs|
    ensures forall id :: id in Loaded(Ids(|docs|), docs, metas, embs) <==> id in Ids(|docs|)
  {
    var ids := Ids(|docs|);
    var items := Items(ids, docs, metas, embs);
    IdRows(docs, metas, embs);
    InsertedContents(map[], items);
    InsertedKeys(map[], items);
    forall id ensures HasId(items, id) <==> id in ids {
      if HasId(items, id) {
        var k :| 0 <= k < |items| && items[k].id == id;
        assert ids[k] == id;
      }
      if id in ids {
        var k :| 0 <= k < |ids| && ids[k] == id;
        assert items[k].id == id;
      }
    }
  }

  /** ... and stores row `i` under `str(i)`. */
  lemma LoadedRows(docs: seq<string>, metas: seq<Metadata>, embs: seq<Embedding>)
    requires |docs| == |metas| == |embs|
    ensures forall i :: 0 <= i < |docs| ==>
      NatToString(i) in Loaded(Ids(|docs|), docs, metas, embs) &&
      Loaded(Ids(|docs|), docs, metas, embs)[NatToString(i)] == Entry(docs[i], metas[i], embs[i])
  {
    var items := Items(Ids(|docs|), docs, metas, embs);
    IdRows(docs, metas, embs);
    InsertedContents(map[], items);
  }
}
