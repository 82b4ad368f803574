/**
 * The handful of Python string and path operations the pipeline relies on,
 * written out so that their edge cases are explicit: `str.strip()`,
 * `sep.join(xs)`, `str(n)` for a non-negative integer, `s.replace(p, '')`,
 * `s.lower().endswith(x)`, and POSIX `os.path.join` / `os.path.basename`.
 */
module Text {

  /** `p` occurs in `s` at some offset. */
  ghost predicate IsSubstring(p: string, s: string) {
    exists i :: OccursAt(p, s, i)
  }

  /** `p` occurs in `s` at offset `i`. */
  predicate OccursAt(p: string, s: string, i: int) {
    0 <= i <= |s| - |p| && s[i..i + |p|] == p
  }

  lemma SubstringAt(p: string, s: string, i: nat)
    requires i + |p| <= |s| && s[i..i + |p|] == p
    ensures IsSubstring(p, s)
  {
    assert OccursAt(p, s, i);
  }

  /** Occurring inside `s` means occurring inside any text that contains `s`. */
  lemma SubstringInfix(p: string, a: string, s: string, b: string)
    requires IsSubstring(p, s)
    ensures IsSubstring(p, a + s + b)
  {
    var i :| OccursAt(p, s, i);
    var t := a + s + b;
    assert t[|a| + i..|a| + i + |p|] == s[i..i + |p|];
    SubstringAt(p, t, |a| + i);
  }

  lemma SubstringSelf(s: string)
    ensures IsSubstring(s, s)
  {
    SubstringAt(s, s, 0);
  }

  /** Occurring in `s` means occurring in `s + t`. */
  lemma SubstringLeft(p: string, s: string, t: string)
    requires IsSubstring(p, s)
    ensures IsSubstring(p, s + t)
  {
    SubstringInfix(p, [], s, t);
    assert [] + s + t == s + t;
  }

  /** Occurring in `t` means occurring in `s + t`. */
  lemma SubstringRight(p: string, s: string, t: string)
    requires IsSubstring(p, t)
    ensures IsSubstring(p, s + t)
  {
    SubstringInfix(p, s, t, []);
    assert s + t + [] == s + t;
  }

  // ---------------------------------------------------------------------
  // str.strip()

  /** Python's `str.isspace()` for one character: exactly the characters that `str.strip()` removes. */
  predicate IsSpace(c: char) {
    || ('\t' <= c <= '\r')
    || ('\U{1c}' <= c <= ' ')
    || c == '\U{85}' || c == '\U{a0}' || c == '\U{1680}'
    || ('\U{2000}' <= c <= '\U{200a}')
    || c == '\U{2028}' || c == '\U{2029}' || c == '\U{202f}' || c == '\U{205f}' || c == '\U{3000}'
  }

  predicate AllSpace(s: string) {
    forall k :: 0 <= k < |s| ==> IsSpace(s[k])
  }

  /** `s.lstrip()`: the longest suffix of `s` that does not start with whitespace. */
  function TrimLeft(s: string): (r: string)
    ensures |r| <= |s| && r == s[|s| - |r|..]
    ensures r == [] || !IsSpace(r[0])
  {
    if s != [] && IsSpace(s[0]) then TrimLeft(s[1..]) else s
  }

  /** What `lstrip` removes is whitespace. */
  lemma {:induction false} TrimLeftRemovesSpace(s: string)
    ensures AllSpace(s[..|s| - |TrimLeft(s)|])
    decreases |s|
  {
    if s != [] && IsSpace(s[0]) {
      var r := TrimLeft(s[1..]);
      TrimLeftRemovesSpace(s[1..]);
      assert s[..|s| - |r|] == [s[0]] + s[1..][..|s| - 1 - |r|];
    }
  }

  /** `s.rstrip()`: the longest prefix of `s` that does not end with whitespace. */
  function TrimRight(s: string): (r: string)
    ensures |r| <= |s| && r == s[..|r|]
    ensures r == [] || !IsSpace(r[|r| - 1])
  {
    if s != [] && IsSpace(s[|s| - 1]) then TrimRight(s[..|s| - 1]) else s
  }

  /** What `rstrip` removes is whitespace. */
  lemma {:induction false} TrimRightRemovesSpace(s: string)
    ensures AllSpace(s[|TrimRight(s)|..])
    decreases |s|
  {
    if s != [] && IsSpace(s[|s| - 1]) {
      var r := TrimRight(s[..|s| - 1]);
      TrimRightRemovesSpace(s[..|s| - 1]);
      assert s[|r|..] == s[..|s| - 1][|r|..] + [s[|s| - 1]];
    }
  }

  /**
   * `s.strip()`: the slice of `s` left when all leading and all trailing
   * whitespace is removed. It is empty exactly when `s` is all whitespace.
   */
  function Strip(s: string): (r: string)
    ensures exists i :: StrippedAt(s, r, i)
    ensures r == [] || (!IsSpace(r[0]) && !IsSpace(r[|r| - 1]))
    ensures r == [] <==> AllSpace(s)
  {
    var r := TrimRight(TrimLeft(s));
    TrimBothSlice(s);
    TrimBothEnds(s);
    TrimBothEmpty(s);
    r
  }

  lemma TrimBothSlice(s: string)
    ensures StrippedAt(s, TrimRight(TrimLeft(s)), |s| - |TrimLeft(s)|)
  {
    var t := TrimLeft(s);
    var r := TrimRight(t);
    TrimLeftRemovesSpace(s);
    TrimRightRemovesSpace(t);
    StrippedOfParts(s, t, r);
  }

  /** Cutting a whitespace prefix off `s` and then a whitespace suffix off the rest leaves a stripped slice. */
  lemma StrippedOfParts(s: string, t: string, r: string)
    requires |t| <= |s| && t == s[|s| - |t|..] && AllSpace(s[..|s| - |t|])
    requires |r| <= |t| && r == t[..|r|] && AllSpace(t[|r|..])
    ensures StrippedAt(s, r, |s| - |t|)
  {
    var i := |s| - |t|;
    assert r == s[i..i + |r|];
    assert s[i + |r|..] == t[|r|..];
  }

  lemma TrimBothEnds(s: string)
    ensures var r := TrimRight(TrimLeft(s)); r == [] || (!IsSpace(r[0]) && !IsSpace(r[|r| - 1]))
  {
    var t := TrimLeft(s);
    var r := TrimRight(t);
    if r != [] {
      assert r[0] == t[0];
    }
  }

  lemma TrimBothEmpty(s: string)
    ensures TrimRight(TrimLeft(s)) == [] <==> AllSpace(s)
  {
    var t := TrimLeft(s);
    if TrimRight(t) == [] {
      TrimLeftRemovesSpace(s);
      TrimRightRemovesSpace(t);
      assert t[0..] == t;
      AllSpaceOfParts(s, t);
    }
    if AllSpace(s) {
      AllSpaceTrimLeft(s);
    }
  }

  /** A whitespace prefix followed by a whitespace rest is whitespace. */
  lemma AllSpaceOfParts(s: string, t: string)
    requires |t| <= |s| && t == s[|s| - |t|..] && AllSpace(s[..|s| - |t|]) && AllSpace(t)
    ensures AllSpace(s)
  {
    var i := |s| - |t|;
    forall k | 0 <= k < |s| ensures IsSpace(s[k]) {
      if k < i {
        assert s[k] == s[..i][k];
      } else {
        assert s[k] == t[k - i];
      }
    }
  }

  lemma AllSpaceTrimLeft(s: string)
    requires AllSpace(s)
    ensures TrimLeft(s) == []
  {
  }

  /** `r` is `s` with the whitespace-only prefix `s[..i]` and a whitespace-only suffix removed. */
  predicate StrippedAt(s: string, r: string, i: int) {
    0 <= i <= |s| - |r| && r == s[i..i + |r|] && AllSpace(s[..i]) && AllSpace(s[i + |r|..])
  }

  // ---------------------------------------------------------------------
  // sep.join(xs)

  /** Python's `sep.join(xs)`. */
  function Join(sep: string, xs: seq<string>): string
  {
    if xs == [] then []
    else if |xs| == 1 then xs[0]
    else xs[0] + sep + Join(sep, xs[1..])
  }

  /** Every joined element appears in the joined text. */
  lemma {:induction false} JoinContains(sep: string, xs: seq<string>, k: nat)
    requires k < |xs|
    ensures IsSubstring(xs[k], Join(sep, xs))
  {
    if |xs| == 1 {
      SubstringAt(xs[0], Join(sep, xs), 0);
    } else if k == 0 {
      var j := Join(sep, xs);
      assert j[0..|xs[0]|] == xs[0];
      SubstringAt(xs[0], j, 0);
    } else {
      JoinContains(sep, xs[1..], k - 1);
      SubstringInfix(xs[k], xs[0] + sep, Join(sep, xs[1..]), []);
      assert xs[0] + sep + Join(sep, xs[1..]) + [] == Join(sep, xs);
    }
  }

  // ---------------------------------------------------------------------
  // str(n) for n >= 0

  predicate IsDigit(c: char) {
    '0' <= c <= '9'
  }

  function DigitChar(d: nat): (c: char)
    requires d < 10
    ensures IsDigit(c)
  {
    (48 + d) as char
  }

  /** The value of a decimal digit; 0 for any other character. */
  function DigitValue(c: char): nat {
    if IsDigit(c) then (c as int - 48) else 0
  }

  /** Reads a string of decimal digits as a number (Python's `int(s)` on such strings). */
  function ParseNat(s: string): nat
  {
    if s == [] then 0 else ParseNat(s[..|s| - 1]) * 10 + DigitValue(s[|s| - 1])
  }

  /**
   * Python's `str(n)` for a non-negative integer: decimal digits without
   * leading zeros, which `ParseNat` reads back as `n`. So distinct numbers
   * give distinct strings.
   */
  function NatToString(n: nat): (r: string)
    ensures |r| > 0 && forall k :: 0 <= k < |r| ==> IsDigit(r[k])
    ensures |r| > 1 ==> r[0] != '0'
    ensures ParseNat(r) == n
  {
    if n < 10 then
      [DigitChar(n)]
    else
      var p := NatToString(n / 10);
      var r := p + [DigitChar(n % 10)];
      assert r[..|r| - 1] == p;
      r
  }

  lemma NatToStringInjective(m: nat, n: nat)
    requires NatToString(m) == NatToString(n)
    ensures m == n
  {
  }

  // ---------------------------------------------------------------------
  // s.replace(pat, '')

  /**
   * Python's `s.replace(pat, '')` for a non-empty `pat`: occurrences are
   * found left to right, without overlap, and each is deleted.
   */
  function RemoveAll(s: string, pat: string): (r: string)
    requires pat != []
    ensures |r| <= |s|
    decreases |s|
  {
    if |s| < |pat| then s
    else if s[..|pat|] == pat then RemoveAll(s[|pat|..], pat)
    else [s[0]] + RemoveAll(s[1..], pat)
  }

  /** Text in which `pat` does not occur is returned unchanged. */
  lemma {:induction false} RemoveAllAbsent(s: string, pat: string)
    requires pat != [] && !IsSubstring(pat, s)
    ensures RemoveAll(s, pat) == s
    decreases |s|
  {
    if |s| >= |pat| {
      if s[..|pat|] == pat {
        SubstringAt(pat, s, 0);
      } else {
        forall i | OccursAt(pat, s[1..], i)
          ensures OccursAt(pat, s, i + 1)
        {
          assert s[1..][i..i + |pat|] == s[i + 1..i + 1 + |pat|];
        }
        RemoveAllAbsent(s[1..], pat);
      }
    }
  }

  // ---------------------------------------------------------------------
  // s.lower().endswith(x)

  /** Lower-casing of one character, on the ASCII letters. */
  function AsciiLower(c: char): char {
    if 'A' <= c <= 'Z' then (c as int + 32) as char else c
  }

  function Lower(s: string): (r: string)
    ensures |r| == |s| && forall k :: 0 <= k < |s| ==> r[k] == AsciiLower(s[k])
  {
    seq(|s|, k requires 0 <= k < |s| => AsciiLower(s[k]))
  }

  predicate EndsWith(s: string, suffix: string) {
    |suffix| <= |s| && s[|s| - |suffix|..] == suffix
  }

  // ---------------------------------------------------------------------
  // os.path.join and os.path.basename (POSIX)

  /** POSIX `os.path.join(dir, name)`: an absolute `name` replaces `dir`; otherwise one `/` separates them. */
  function PathJoin(dir: string, name: string): string {
    if name != [] && name[0] == '/' then name
    else if dir == [] || dir[|dir| - 1] == '/' then dir + name
    else dir + "/" + name
  }

  /** POSIX `os.path.basename(p)`: what follows the last `/` of `p`, or all of `p` when it has none. */
  function Basename(p: string): (r: string)
    ensures |r| <= |p| && r == p[|p| - |r|..]
    ensures '/' !in r
    ensures |r| < |p| ==> p[|p| - |r| - 1] == '/'
  {
    if p == [] || p[|p| - 1] == '/' then []
    else
      var q := p[..|p| - 1];
      var b := Basename(q);
      var r := b + [p[|p| - 1]];
      assert p[|p| - |r|..] == q[|q| - |b|..] + [p[|p| - 1]];
      assert |r| < |p| ==> p[|p| - |r| - 1] == q[|q| - |b| - 1];
      r
  }

  /** The basename of a path that ends in `/` + `name` (or is just `name`) is `name`. */
  lemma {:induction false} BasenameOfSuffix(dir: string, name: string)
    requires '/' !in name
    requires dir == [] || dir[|dir| - 1] == '/'
    ensures Basename(dir + name) == name
    decreases |name|
  {
    if name == [] {
      assert dir + name == dir;
    } else {
      var p := dir + name;
      assert p[..|p| - 1] == dir + name[..|name| - 1];
      BasenameOfSuffix(dir, name[..|name| - 1]);
    }
  }

  /** Joining a directory with a plain file name and taking the basename gives the file name back. */
  lemma BasenameOfJoin(dir: string, name: string)
    requires '/' !in name
    ensures Basename(PathJoin(dir, name)) == name
  {
    if dir == [] || dir[|dir| - 1] == '/' {
      BasenameOfSuffix(dir, name);
    } else {
      assert dir + "/" + name == (dir + "/") + name;
      BasenameOfSuffix(dir + "/", name);
    }
  }
}
