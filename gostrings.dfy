/**
 * The parts of Go's `strings` package and string comparison that the
 * repository relies on: `<` on strings, `TrimSpace`, `Trim` with a cut set,
 * `HasPrefix`, `TrimPrefix` and `Contains`. Strings are sequences of Unicode
 * scalar values; Go compares UTF-8 bytes, which orders valid text exactly as
 * comparing code points does.
 */
module GoStrings {

  /** Go's `a < b` on strings: lexicographic, a proper prefix sorts first. */
  predicate Less(a: string, b: string) {
    |b| > 0 && (|a| == 0 || (if a[0] == b[0] then Less(a[1..], b[1..]) else a[0] < b[0]))
  }

  lemma {:induction false} LessIrreflexive(a: string)
    ensures !Less(a, a)
  {
    if |a| > 0 {
      LessIrreflexive(a[1..]);
    }
  }

  lemma {:induction false} LessAsymmetric(a: string, b: string)
    ensures !(Less(a, b) && Less(b, a))
  {
    if |a| > 0 && |b| > 0 && a[0] == b[0] {
      LessAsymmetric(a[1..], b[1..]);
    }
  }

  lemma {:induction false} LessTransitive(a: string, b: string, c: string)
    requires Less(a, b) && Less(b, c)
    ensures Less(a, c)
  {
    if |a| > 0 && a[0] == b[0] && b[0] == c[0] {
      LessTransitive(a[1..], b[1..], c[1..]);
    }
  }

  /** Any two different strings are ordered one way or the other. */
  lemma {:induction false} LessTotal(a: string, b: string)
    ensures a == b || Less(a, b) || Less(b, a)
  {
    if |a| > 0 && |b| > 0 && a[0] == b[0] {
      LessTotal(a[1..], b[1..]);
      if a[1..] == b[1..] {
        assert a == [a[0]] + a[1..] && b == [b[0]] + b[1..];
      }
    }
  }

  /** Go's `unicode.IsSpace`: the Latin-1 spaces and the Unicode White_Space set. */
  predicate IsSpace(c: char) {
    || c == ' '
    || ('\t' <= c <= '\r')
    || c == '\U{0085}'
    || c == '\U{00A0}'
    || c == '\U{1680}'
    || ('\U{2000}' <= c <= '\U{200A}')
    || c == '\U{2028}'
    || c == '\U{2029}'
    || c == '\U{202F}'
    || c == '\U{205F}'
    || c == '\U{3000}'
  }

  predicate IsSlash(c: char) {
    c == '/'
  }

  /** Go's `strings.TrimLeftFunc`: drops the longest prefix whose characters satisfy `f`. */
  function TrimLeftFunc(s: string, f: char -> bool): (r: string)
    ensures |r| <= |s| && r == s[|s| - |r|..]
    ensures r == [] || !f(r[0])
  {
    if |s| > 0 && f(s[0]) then TrimLeftFunc(s[1..], f) else s
  }

  /** Every character `TrimLeftFunc` drops satisfies `f`. */
  lemma {:induction false} TrimLeftCut(s: string, f: char -> bool)
    ensures forall i :: 0 <= i < |s| - |TrimLeftFunc(s, f)| ==> f(s[i])
  {
    if |s| > 0 && f(s[0]) {
      TrimLeftCut(s[1..], f);
      forall i | 1 <= i < |s| - |TrimLeftFunc(s, f)|
        ensures f(s[i])
      {
        assert s[i] == s[1..][i - 1];
      }
    }
  }

  /** Go's `strings.TrimRightFunc`: drops the longest suffix whose characters satisfy `f`. */
  function TrimRightFunc(s: string, f: char -> bool): (r: string)
    ensures |r| <= |s| && r == s[..|r|]
    ensures r == [] || !f(r[|r| - 1])
  {
    if |s| > 0 && f(s[|s| - 1]) then TrimRightFunc(s[..|s| - 1], f) else s
  }

  /** Every character `TrimRightFunc` drops satisfies `f`. */
  lemma {:induction false} TrimRightCut(s: string, f: char -> bool)
    ensures forall i :: |TrimRightFunc(s, f)| <= i < |s| ==> f(s[i])
  {
    if |s| > 0 && f(s[|s| - 1]) {
      TrimRightCut(s[..|s| - 1], f);
      forall i | |TrimRightFunc(s, f)| <= i < |s| - 1
        ensures f(s[i])
      {
        assert s[i] == s[..|s| - 1][i];
      }
    }
  }

  /** Go's `strings.TrimFunc`: both ends. */
  function TrimFunc(s: string, f: char -> bool): string {
    TrimRightFunc(TrimLeftFunc(s, f), f)
  }

  /** `strings.TrimSpace`. */
  function TrimSpace(s: string): (r: string)
    ensures |r| <= |s| && IsTrimmed(r)
    ensures r == s <==> IsTrimmed(s)
  {
    TrimFuncTrimmed(s, IsSpace);
    TrimFuncIdentity(s, IsSpace);
    TrimFunc(s, IsSpace)
  }

  /** `strings.Trim(s, "/")`. */
  function TrimSlashes(s: string): string {
    TrimFunc(s, IsSlash)
  }

  /** Neither end of `s` satisfies `f`. */
  predicate TrimmedBy(s: string, f: char -> bool) {
    s == [] || (!f(s[0]) && !f(s[|s| - 1]))
  }

  predicate IsTrimmed(s: string) {
    TrimmedBy(s, IsSpace)
  }

  /** The left cut stops at the first character outside `f`. */
  lemma {:induction false} TrimLeftAt(s: string, f: char -> bool, i: nat)
    requires i <= |s| && (i == |s| || !f(s[i]))
    requires forall k :: 0 <= k < i ==> f(s[k])
    ensures TrimLeftFunc(s, f) == s[i..]
  {
    if i > 0 {
      TrimLeftAt(s[1..], f, i - 1);
      assert s[1..][i - 1..] == s[i..];
    }
  }

  /** The right cut stops after the last character outside `f`. */
  lemma {:induction false} TrimRightAt(s: string, f: char -> bool, j: nat)
    requires j <= |s| && (j == 0 || !f(s[j - 1]))
    requires forall k :: j <= k < |s| ==> f(s[k])
    ensures TrimRightFunc(s, f) == s[..j]
  {
    if j < |s| {
      TrimRightAt(s[..|s| - 1], f, j);
      assert s[..|s| - 1][..j] == s[..j];
    }
  }

  /**
   * `TrimFunc` keeps a middle part of `s` that starts and ends outside `f`;
   * everything cut before and after it satisfies `f`.
   */
  lemma {:induction false} TrimFuncSplits(s: string, f: char -> bool)
    ensures var r := TrimFunc(s, f);
      var i := |s| - |TrimLeftFunc(s, f)|;
      TrimmedBy(r, f) && i + |r| <= |s| && r == s[i..i + |r|] &&
      (forall k :: 0 <= k < i ==> f(s[k])) &&
      (forall k :: i + |r| <= k < |s| ==> f(s[k]))
  {
    var left := TrimLeftFunc(s, f);
    var r := TrimRightFunc(left, f);
    var i := |s| - |left|;
    TrimLeftCut(s, f);
    TrimRightCut(left, f);
    TrimFuncTrimmed(s, f);
    assert r == s[i..i + |r|] by {
      assert left == s[i..] && r == left[..|r|];
    }
    TrimmedTail(s, left, r, f, i);
  }

  /** Neither end of a trimmed string satisfies `f`. */
  lemma TrimFuncTrimmed(s: string, f: char -> bool)
    ensures TrimmedBy(TrimFunc(s, f), f)
  {
    var left := TrimLeftFunc(s, f);
    var r := TrimRightFunc(left, f);
    if r != [] {
      assert r[0] == left[0];
    }
  }

  /** What the right cut removes from `left` is also a tail of `s`. */
  lemma TrimmedTail(s: string, left: string, r: string, f: char -> bool, i: nat)
    requires i <= |s| && left == s[i..]
    requires |r| <= |left| && forall k :: |r| <= k < |left| ==> f(left[k])
    ensures forall k :: i + |r| <= k < |s| ==> f(s[k])
  {
    forall k | i + |r| <= k < |s|
      ensures f(s[k])
    {
      assert s[k] == left[k - i];
    }
  }

  /** Trimming leaves a string unchanged exactly when neither end is cut. */
  lemma {:induction false} TrimFuncIdentity(s: string, f: char -> bool)
    ensures TrimFunc(s, f) == s <==> TrimmedBy(s, f)
  {
    if TrimmedBy(s, f) {
      TrimLeftAt(s, f, 0);
      TrimRightAt(s, f, |s|);
    } else if TrimFunc(s, f) == s {
      TrimFuncSplits(s, f);
    }
  }

  /** Trimming twice is trimming once. */
  lemma {:induction false} TrimFuncIdempotent(s: string, f: char -> bool)
    ensures TrimFunc(TrimFunc(s, f), f) == TrimFunc(s, f)
  {
    TrimFuncSplits(s, f);
    TrimFuncIdentity(TrimFunc(s, f), f);
  }

  lemma TrimLeftPadding(pre: string, rest: string, f: char -> bool)
    requires forall c :: c in pre ==> f(c)
    requires rest == [] || !f(rest[0])
    ensures TrimLeftFunc(pre + rest, f) == rest
  {
    var s := pre + rest;
    forall k | 0 <= k < |pre|
      ensures f(s[k])
    {
      assert s[k] == pre[k] && pre[k] in pre;
    }
    if rest != [] {
      assert s[|pre|] == rest[0];
    }
    TrimLeftAt(s, f, |pre|);
    assert s[|pre|..] == rest;
  }

  lemma TrimRightPadding(rest: string, post: string, f: char -> bool)
    requires forall c :: c in post ==> f(c)
    requires rest == [] || !f(rest[|rest| - 1])
    ensures TrimRightFunc(rest + post, f) == rest
  {
    var s := rest + post;
    forall k | |rest| <= k < |s|
      ensures f(s[k])
    {
      assert s[k] == post[k - |rest|] && post[k - |rest|] in post;
    }
    if rest != [] {
      assert s[|rest| - 1] == rest[|rest| - 1];
    }
    TrimRightAt(s, f, |rest|);
    assert s[..|rest|] == rest;
  }

  /** Surrounding `core` with characters of `f` is undone by trimming. */
  lemma {:induction false} TrimFuncPadding(pre: string, core: string, post: string, f: char -> bool)
    requires forall c :: c in pre ==> f(c)
    requires forall c :: c in post ==> f(c)
    requires TrimmedBy(core, f) && core != []
    ensures TrimFunc(pre + core + post, f) == core
  {
    assert pre + core + post == pre + (core + post);
    assert (core + post)[0] == core[0];
    TrimLeftPadding(pre, core + post, f);
    TrimRightPadding(core, post, f);
  }

  /** `strings.HasPrefix`. */
  predicate HasPrefix(s: string, prefix: string) {
    |prefix| <= |s| && s[..|prefix|] == prefix
  }

  /** `strings.TrimPrefix`: drops `prefix` when `s` starts with it. */
  function TrimPrefix(s: string, prefix: string): (r: string)
    ensures HasPrefix(s, prefix) ==> prefix + r == s
    ensures !HasPrefix(s, prefix) ==> r == s
  {
    if HasPrefix(s, prefix) then s[|prefix|..] else s
  }

  /** `strings.Contains(s, "/")`. */
  predicate ContainsSlash(s: string) {
    exists i :: 0 <= i < |s| && IsSlash(s[i])
  }
}
