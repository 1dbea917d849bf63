/** The few operations of Go's `strings` package that the core relies on:
    HasPrefix, HasSuffix, TrimPrefix, TrimSpace and SplitN with a limit of 2.
    Strings are sequences of Unicode code points, so a Go string is taken to be
    already decoded from UTF-8. */
module Strings {
  import opened Base

  predicate HasPrefix(s: string, p: string) {
    |p| <= |s| && s[..|p|] == p
  }

  predicate HasSuffix(s: string, x: string) {
    |x| <= |s| && s[|s| - |x|..] == x
  }

  /** strings.TrimPrefix: drops one leading copy of `p`, if there is one. */
  function TrimPrefix(s: string, p: string): (r: string)
    ensures HasPrefix(s, p) ==> s == p + r
    ensures !HasPrefix(s, p) ==> r == s
  {
    if HasPrefix(s, p) then s[|p|..] else s
  }

  /** strings.TrimSuffix: drops one trailing copy of `x`, if there is one. */
  function TrimSuffix(s: string, x: string): (r: string)
    ensures HasSuffix(s, x) ==> s == r + x
    ensures !HasSuffix(s, x) ==> r == s
  {
    if HasSuffix(s, x) then s[..|s| - |x|] else s
  }

  lemma TrimPrefixOfPrefixed(p: string, q: string)
    ensures TrimPrefix(p + q, p) == q
  {
    assert (p + q)[..|p|] == p;
  }

  /** unicode.IsSpace: the white-space code points Go's TrimSpace removes. */
  predicate IsSpace(c: char) {
    || c == '\t' || c == '\n' || c == '\U{0B}' || c == '\U{0C}' || c == '\r' || c == ' '
    || c == '\U{85}' || c == '\U{A0}' || c == '\U{1680}'
    || ('\U{2000}' <= c <= '\U{200A}')
    || c == '\U{2028}' || c == '\U{2029}' || c == '\U{202F}' || c == '\U{205F}' || c == '\U{3000}'
  }

  function TrimLeft(s: string): string {
    if s != [] && IsSpace(s[0]) then TrimLeft(s[1..]) else s
  }

  function TrimRight(s: string): string {
    if s != [] && IsSpace(s[|s| - 1]) then TrimRight(s[..|s| - 1]) else s
  }

  /** strings.TrimSpace: strips white space from both ends. */
  function TrimSpace(s: string): string {
    TrimRight(TrimLeft(s))
  }

  /** TrimLeft keeps a suffix of its input, drops only white space, and the
      suffix it keeps does not start with white space. */
  lemma {:induction false} TrimLeftSpec(s: string)
    ensures |TrimLeft(s)| <= |s| && TrimLeft(s) == s[|s| - |TrimLeft(s)|..]
    ensures forall k :: 0 <= k < |s| - |TrimLeft(s)| ==> IsSpace(s[k])
    ensures TrimLeft(s) == [] || !IsSpace(TrimLeft(s)[0])
  {
    if s != [] && IsSpace(s[0]) {
      var t := s[1..];
      TrimLeftSpec(t);
      assert TrimLeft(s) == TrimLeft(t);
      assert t[|t| - |TrimLeft(t)|..] == s[|s| - |TrimLeft(s)|..];
      forall k | 0 <= k < |s| - |TrimLeft(s)| ensures IsSpace(s[k]) {
        if k > 0 { assert s[k] == t[k - 1]; }
      }
    }
  }

  /** TrimRight keeps a prefix of its input, drops only white space, and the
      prefix it keeps does not end with white space. */
  lemma {:induction false} TrimRightSpec(s: string)
    ensures |TrimRight(s)| <= |s| && TrimRight(s) == s[..|TrimRight(s)|]
    ensures forall k :: |TrimRight(s)| <= k < |s| ==> IsSpace(s[k])
    ensures TrimRight(s) == [] || !IsSpace(TrimRight(s)[|TrimRight(s)| - 1])
  {
    if s != [] && IsSpace(s[|s| - 1]) {
      var t := s[..|s| - 1];
      TrimRightSpec(t);
      assert TrimRight(s) == TrimRight(t);
      assert t[..|TrimRight(t)|] == s[..|TrimRight(s)|];
      forall k | |TrimRight(s)| <= k < |s| ensures IsSpace(s[k]) {
        if k < |s| - 1 { assert s[k] == t[k]; }
      }
    }
  }

  /** The result of TrimSpace neither starts nor ends with white space. */
  lemma TrimSpaceBounds(s: string)
    ensures var r := TrimSpace(s); r == [] || (!IsSpace(r[0]) && !IsSpace(r[|r| - 1]))
  {
    var t := TrimLeft(s);
    TrimLeftSpec(s);
    TrimRightSpec(t);
    var r := TrimRight(t);
    if r != [] {
      assert r[0] == t[0];
    }
  }

  /** Trimming twice is trimming once. */
  lemma TrimSpaceIdempotent(s: string)
    ensures TrimSpace(TrimSpace(s)) == TrimSpace(s)
  {
    var r := TrimSpace(s);
    TrimSpaceBounds(s);
    assert TrimLeft(r) == r;
  }

  /** `sep` occurs in `s` starting at index `j`. */
  predicate OccursAt(s: string, sep: string, j: int) {
    0 <= j && j + |sep| <= |s| && s[j..j + |sep|] == sep
  }

  predicate Contains(s: string, sep: string) {
    exists j :: 0 <= j <= |s| && OccursAt(s, sep, j)
  }

  /** The first index at or after `j` where `sep` occurs (strings.Index from `j`). */
  function IndexFrom(s: string, sep: string, j: nat): Option<nat>
    requires |sep| > 0
    decreases |s| - j
  {
    if j + |sep| > |s| then None
    else if s[j..j + |sep|] == sep then Some(j)
    else IndexFrom(s, sep, j + 1)
  }

  lemma {:induction false} IndexFromSpec(s: string, sep: string, j: nat)
    requires |sep| > 0
    ensures IndexFrom(s, sep, j).Some? ==>
              var i := IndexFrom(s, sep, j).value;
              j <= i && OccursAt(s, sep, i) && forall k :: j <= k < i ==> !OccursAt(s, sep, k)
    ensures IndexFrom(s, sep, j).None? ==> forall k :: j <= k ==> !OccursAt(s, sep, k)
    decreases |s| - j
  {
    if j + |sep| > |s| {
    } else if s[j..j + |sep|] == sep {
    } else {
      IndexFromSpec(s, sep, j + 1);
    }
  }

  /** strings.SplitN(s, sep, 2) when it yields two parts: the text before the
      first occurrence of `sep` and the text after it; None when it yields the
      single part `s` because `sep` does not occur. */
  function Cut(s: string, sep: string): (r: Option<(string, string)>)
    requires |sep| > 0
    ensures r.Some? ==> s == r.value.0 + sep + r.value.1
    ensures r.Some? ==> forall k :: 0 <= k < |r.value.0| ==> !OccursAt(s, sep, k)
    ensures r.None? <==> !Contains(s, sep)
  {
    IndexFromSpec(s, sep, 0);
    match IndexFrom(s, sep, 0)
    case None => None
    case Some(i) =>
      assert s == s[..i] + s[i..i + |sep|] + s[i + |sep|..];
      Some((s[..i], s[i + |sep|..]))
  }

  /** When `sep` does not start anywhere inside `a`, cutting `a + sep + b` at its
      first `sep` gives back `a` and `b`. */
  /** Cutting at a one-character separator leaves no copy of it in the head. */
  lemma CutHeadFree(s: string, ch: char)
    requires Cut(s, [ch]).Some?
    ensures ch !in Cut(s, [ch]).value.0
  {
    var head := Cut(s, [ch]).value.0;
    forall k | 0 <= k < |head|
      ensures head[k] != ch
    {
      assert s[k] == head[k];
      assert !OccursAt(s, [ch], k);
      assert s[k..k + 1] == [s[k]];
    }
  }

  lemma CutAtFirst(a: string, sep: string, b: string)
    requires |sep| > 0
    requires forall k :: 0 <= k < |a| ==> !OccursAt(a + sep + b, sep, k)
    ensures Cut(a + sep + b, sep) == Some((a, b))
  {
    var s := a + sep + b;
    assert s[|a|..|a| + |sep|] == sep;
    assert OccursAt(s, sep, |a|);
    var r := Cut(s, sep);
    assert r.Some?;
    var (x, y) := r.value;
    if |x| < |a| {
      assert s[|x|..|x| + |sep|] == sep;
      assert OccursAt(s, sep, |x|);
    }
    assert |x| == |a|;
    assert x == s[..|a|] == a;
    assert y == s[|a| + |sep|..] == b;
  }
}
