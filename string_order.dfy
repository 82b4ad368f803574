/**
 * Python's ordering of strings (lexicographic by code point) and
 * `sorted(set(xs))`, the strictly increasing list of the distinct elements
 * of `xs`.
 */
module StringOrder {

  /** `a < b` on Python strings: compare code points left to right; a proper prefix comes first. */
  predicate Below(a: string, b: string)
    decreases |a|
  {
    if a == [] then b != []
    else if b == [] then false
    else if a[0] != b[0] then a[0] < b[0]
    else Below(a[1..], b[1..])
  }

  lemma {:induction false} BelowIrreflexive(a: string)
    ensures !Below(a, a)
    decreases |a|
  {
    if a != [] {
      BelowIrreflexive(a[1..]);
    }
  }

  lemma {:induction false} BelowTransitive(a: string, b: string, c: string)
    requires Below(a, b) && Below(b, c)
    ensures Below(a, c)
    decreases |a|
  {
    if a != [] && a[0] == b[0] && b[0] == c[0] {
      BelowTransitive(a[1..], b[1..], c[1..]);
    }
  }

  lemma {:induction false} BelowTotal(a: string, b: string)
    requires a != b
    ensures Below(a, b) || Below(b, a)
    decreases |a|
  {
    if a != [] && b != [] && a[0] == b[0] {
      assert a == [a[0]] + a[1..] && b == [b[0]] + b[1..];
      BelowTotal(a[1..], b[1..]);
    }
  }

  lemma BelowAsymmetric(a: string, b: string)
    requires Below(a, b)
    ensures !Below(b, a)
  {
    if Below(b, a) {
      BelowTransitive(a, b, a);
      BelowIrreflexive(a);
    }
  }

  /** Sorted with no repeated element. */
  ghost predicate Increasing(s: seq<string>) {
    forall i, j :: 0 <= i < j < |s| ==> Below(s[i], s[j])
  }

  /** The strictly increasing list of the elements of `s` and `x`. */
  function Insert(x: string, s: seq<string>): (r: seq<string>)
    requires Increasing(s)
    ensures Increasing(r)
    ensures forall e :: e in r <==> e in s || e == x
  {
    if s == [] then [x]
    else if x == s[0] then s
    else if Below(x, s[0]) then
      assert forall j :: 0 < j < |s| ==> Below(x, s[j]) by {
        forall j | 0 < j < |s| ensures Below(x, s[j]) {
          BelowTransitive(x, s[0], s[j]);
        }
      }
      [x] + s
    else
      BelowTotal(x, s[0]);
      var t := Insert(x, s[1..]);
      assert forall e :: e in t ==> Below(s[0], e) by {
        forall e | e in t ensures Below(s[0], e) {
          if e != x {
            var j :| 1 <= j < |s| && s[j] == e;
          }
        }
      }
      assert [s[0]] + s[1..] == s;
      [s[0]] + t
  }

  /** Python's `sorted(set(xs))`: increasing, and holding exactly the elements of `xs`. */
  function SortedSet(xs: seq<string>): (r: seq<string>)
    ensures Increasing(r)
    ensures forall e :: e in r <==> e in xs
  {
    if xs == [] then []
    else
      var r := Insert(xs[|xs| - 1], SortedSet(xs[..|xs| - 1]));
      assert forall e :: e in xs <==> e in xs[..|xs| - 1] || e == xs[|xs| - 1] by {
        assert xs == xs[..|xs| - 1] + [xs[|xs| - 1]];
      }
      r
  }

  /**
   * An increasing list is determined by its elements: two increasing lists
   * with the same elements are equal. So `sorted(set(xs))` depends only on
   * which strings occur in `xs`, not on their order or repetitions.
   */
  lemma {:induction false} IncreasingUnique(a: seq<string>, b: seq<string>)
    requires Increasing(a) && Increasing(b)
    requires forall e :: e in a <==> e in b
    ensures a == b
    decreases |a|
  {
    if a == [] {
      NoMembersEmpty(b);
    } else {
      assert a[0] in a && b != [];
      assert b[0] in b;
      var k :| 0 <= k < |a| && a[k] == b[0];
      var m :| 0 <= m < |b| && b[m] == a[0];
      if a[0] != b[0] {
        assert k > 0 && m > 0;
        BelowAsymmetric(a[0], a[k]);
      }
      forall e ensures e in a[1..] <==> e in b[1..] {
        if e in a[1..] {
          var i :| 1 <= i < |a| && a[i] == e;
          BelowIrreflexive(e);
          assert e in b;
        }
        if e in b[1..] {
          var i :| 1 <= i < |b| && b[i] == e;
          BelowIrreflexive(e);
          assert e in a;
        }
      }
      IncreasingUnique(a[1..], b[1..]);
      assert a == [a[0]] + a[1..] && b == [b[0]] + b[1..];
    }
  }

  lemma NoMembersEmpty(s: seq<string>)
    requires forall e :: e !in s
    ensures s == []
  {
    if s != [] {
      HeadIsMember(s);
    }
  }

  // Stated apart, so that the branch above can reach its contradiction
  // through a call rather than through a checked assertion.
  lemma HeadIsMember(s: seq<string>)
    requires s != []
    ensures s[0] in s
  {
  }

  /** `sorted(set(xs))` and `sorted(set(ys))` agree when `xs` and `ys` hold the same strings. */
  lemma SortedSetOrderIndependent(xs: seq<string>, ys: seq<string>)
    requires forall e :: e in xs <==> e in ys
    ensures SortedSet(xs) == SortedSet(ys)
  {
    IncreasingUnique(SortedSet(xs), SortedSet(ys));
  }
}
