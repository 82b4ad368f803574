/**
 * Reading a text file line by line: the lines are the pieces between
 * newlines, without the newlines, and a last piece without a newline
 * counts as a line when it is not empty. On a text that holds no `'\r'`
 * these are the lines Python's text-mode reading yields, each without its
 * trailing `'\n'`; Python also ends a line at `'\r'` and `"\r\n"`, which
 * this splitting does not.
 */
module LineSplit {

  /** The index of the first newline of `s`, or `|s|` when there is none. */
  function NewlineIndex(s: string): (k: nat)
    ensures k <= |s| && (forall i :: 0 <= i < k ==> s[i] != '\n') && (k < |s| ==> s[k] == '\n')
  {
    if |s| == 0 then 0
    else if s[0] == '\n' then 0
    else
      var k := 1 + NewlineIndex(s[1..]);
      assert s[..k] == [s[0]] + s[1..][..k - 1];
      k
  }

  /** The lines of a text, split at `'\n'` only, without their newlines. */
  function Lines(s: string): seq<string>
    decreases |s|
  {
    if |s| == 0 then []
    else
      var k := NewlineIndex(s);
      if k == |s| then [s] else [s[..k]] + Lines(s[k + 1..])
  }

  lemma {:induction false} LinesAppend(a: string, b: string)
    requires a == [] || a[|a| - 1] == '\n'
    ensures Lines(a + b) == Lines(a) + Lines(b)
    decreases |a|
  {
    if a == [] {
      assert a + b == b;
    } else {
      var k := NewlineIndex(a);
      RestEndsInNewline(a, k);
      LinesAppend(a[k + 1..], b);
      LinesAppendStep(a, b, k);
    }
  }

  /** What follows the first newline of a text that ends in a newline is empty or ends in a newline. */
  lemma RestEndsInNewline(a: string, k: nat)
    requires a != [] && a[|a| - 1] == '\n' && k == NewlineIndex(a)
    ensures k < |a|
    ensures var rest := a[k + 1..]; rest == [] || rest[|rest| - 1] == '\n'
  {
  }

  /** The inductive step: the first line of `a + b` is that of `a`, and the rest is the rest of `a` followed by `b`. */
  lemma LinesAppendStep(a: string, b: string, k: nat)
    requires k == NewlineIndex(a) && k < |a|
    requires Lines(a[k + 1..] + b) == Lines(a[k + 1..]) + Lines(b)
    ensures Lines(a + b) == Lines(a) + Lines(b)
  {
    NewlineUnchanged(a, b);
    SlicesOfAppend(a, b, k);
    LinesUnfold(a + b, k);
    LinesUnfold(a, k);
    Associative([a[..k]], Lines(a[k + 1..]), Lines(b));
  }

  // Two facts about sequences, proved on their own: asserted inline, next
  // to the definition of Lines, they run the solver out of resource.

  lemma SlicesOfAppend<T>(a: seq<T>, b: seq<T>, k: nat)
    requires k < |a|
    ensures (a + b)[..k] == a[..k] && (a + b)[k + 1..] == a[k + 1..] + b
  {
  }

  lemma Associative<T>(x: seq<T>, y: seq<T>, z: seq<T>)
    ensures x + (y + z) == (x + y) + z
  {
  }

  /** A text whose first newline is at `k` splits there into its first line and the lines of the rest. */
  lemma LinesUnfold(s: string, k: nat)
    requires k < |s| && NewlineIndex(s) == k
    ensures Lines(s) == [s[..k]] + Lines(s[k + 1..])
  {
  }

  lemma {:induction false} NewlineUnchanged(a: string, b: string)
    requires NewlineIndex(a) < |a|
    ensures NewlineIndex(a + b) == NewlineIndex(a)
    decreases |a|
  {
    if a[0] != '\n' {
      assert (a + b)[1..] == a[1..] + b;
      NewlineUnchanged(a[1..], b);
    }
  }

  lemma {:induction false} NewlineIndexOfLine(e: string)
    requires '\n' !in e
    ensures NewlineIndex(e + "\n") == |e|
    decreases |e|
  {
    if e != [] {
      assert e[0] in e;
      assert (e + "\n")[1..] == e[1..] + "\n";
      NewlineIndexOfLine(e[1..]);
    }
  }

  lemma LinesOfLine(e: string)
    requires '\n' !in e
    ensures Lines(e + "\n") == [e]
  {
    var s := e + "\n";
    NewlineIndexOfLine(e);
    assert s[..|e|] == e;
    assert s[|e| + 1..] == [];
  }
}
