/**
 * The 1000-record slices in which the index is populated: the slices
 * `s[i:i+1000]` for `i` in `range(0, len(s), 1000)`.
 */
module Batching {

  const BatchSize := 1000

  function Min(a: int, b: int): int {
    if a < b then a else b
  }

  /** Python's slice `s[i:i+1000]`, whose end is clamped to the length of `s`. */
  function Slice<T>(s: seq<T>, i: nat): seq<T>
    requires i <= |s|
  {
    s[i..Min(i + BatchSize, |s|)]
  }

  /** The elements before `i` followed by the slice at `i` are the elements before `i + 1000`. */
  lemma PrefixThenSlice<T>(s: seq<T>, i: nat)
    requires i <= |s|
    ensures s[..i] + Slice(s, i) == s[..Min(i + BatchSize, |s|)]
  {
  }

  /** The slices `s[i:i+1000]`, in order, for `i` = 0, 1000, 2000, ... below `|s|`. */
  function Batches<T>(s: seq<T>): seq<seq<T>>
    decreases |s|
  {
    if s == [] then [] else [Slice(s, 0)] + Batches(s[Min(BatchSize, |s|)..])
  }

  function Flatten<T>(bs: seq<seq<T>>): seq<T> {
    if bs == [] then [] else bs[0] + Flatten(bs[1..])
  }

  /** The batches put back together are the whole sequence: no element is lost or repeated. */
  lemma {:induction false} BatchesCover<T>(s: seq<T>)
    ensures Flatten(Batches(s)) == s
    decreases |s|
  {
    if s != [] {
      var m := Min(BatchSize, |s|);
      BatchesCover(s[m..]);
      assert s == s[..m] + s[m..];
    }
  }

  /** Every batch is non-empty and holds at most 1000 elements. */
  lemma {:induction false} BatchesBounded<T>(s: seq<T>)
    ensures forall k :: 0 <= k < |Batches(s)| ==> 0 < |Batches(s)[k]| <= BatchSize
    decreases |s|
  {
    if s != [] {
      BatchesBounded(s[Min(BatchSize, |s|)..]);
    }
  }

  /** There are ceil(n / 1000) batches. */
  lemma {:induction false} BatchesCount<T>(s: seq<T>)
    ensures |Batches(s)| == (|s| + BatchSize - 1) / BatchSize
    decreases |s|
  {
    if s != [] {
      BatchesCount(s[Min(BatchSize, |s|)..]);
    }
  }

  /** Batch `b` is the slice starting at `b * 1000`. */
  lemma {:induction false} BatchAt<T>(s: seq<T>, b: nat)
    requires b * BatchSize < |s|
    ensures b < |Batches(s)| && Batches(s)[b] == Slice(s, b * BatchSize)
  {
    if b > 0 {
      var rest := s[BatchSize..];
      BatchAt(rest, b - 1);
      assert Slice(rest, (b - 1) * BatchSize) == Slice(s, b * BatchSize);
    }
  }

  /** Element `p` sits in batch `p / 1000` at offset `p % 1000`. */
  lemma BatchPosition<T>(s: seq<T>, p: nat)
    requires p < |s|
    ensures p / BatchSize < |Batches(s)|
    ensures p % BatchSize < |Batches(s)[p / BatchSize]|
    ensures Batches(s)[p / BatchSize][p % BatchSize] == s[p]
  {
    BatchAt(s, p / BatchSize);
  }

  /**
   * Sequences of the same length are cut at the same places, so entry `k`
   * of batch `b` of each is element `b * 1000 + k` of each.
   */
  lemma BatchesAligned<T, U>(s: seq<T>, t: seq<U>, b: nat)
    requires |s| == |t| && b < |Batches(s)|
    ensures b < |Batches(t)| && |Batches(s)[b]| == |Batches(t)[b]|
    ensures forall k :: 0 <= k < |Batches(s)[b]| ==>
      b * BatchSize + k < |s| && Batches(s)[b][k] == s[b * BatchSize + k] && Batches(t)[b][k] == t[b * BatchSize + k]
  {
    BatchesCount(s);
    BatchesCount(t);
    BatchAt(s, b);
    BatchAt(t, b);
  }

  /** A log of the first `b` batches followed by batch `b` is a log of the first `b + 1` batches. */
  lemma LogStep<T>(log: seq<seq<T>>, s: seq<T>, b: nat)
    requires b * BatchSize < |s|
    ensures b < |Batches(s)|
    ensures log + Batches(s)[..b] + [Slice(s, b * BatchSize)] == log + Batches(s)[..b + 1]
  {
    BatchAt(s, b);
    assert Batches(s)[..b + 1] == Batches(s)[..b] + [Batches(s)[b]];
  }

  /** A loop that steps by 1000 from 0 and stops at the first multiple not below `|s|` has run once per batch. */
  lemma BatchesUpTo<T>(s: seq<T>, b: nat)
    requires |s| <= b * BatchSize
    requires b == 0 || (b - 1) * BatchSize < |s|
    ensures |Batches(s)| == b
  {
    BatchesCount(s);
  }

  /** A corpus of 2500 records is added in three batches of 1000, 1000 and 500. */
  lemma BatchesExample<T>(s: seq<T>)
    requires |s| == 2500
    ensures |Batches(s)| == 3
    ensures |Batches(s)[0]| == 1000 && |Batches(s)[1]| == 1000 && |Batches(s)[2]| == 500
  {
    BatchesCount(s);
    BatchAt(s, 0);
    BatchAt(s, 1);
    BatchAt(s, 2);
  }
}
