/** The JavaScript string operations the core relies on: `includes`,
    `indexOf`, `replace` with a string pattern (first occurrence only),
    `trim`, `substring(0, n)` and an ASCII-only `toLowerCase`. */
module Text {
  import opened Wrappers

  /** `sub` occurs in `s` at position `i`. */
  ghost predicate OccursAt(s: string, sub: string, i: int) {
    0 <= i && i + |sub| <= |s| && s[i..i + |sub|] == sub
  }

  /** `sub` occurs somewhere in `s`: the meaning of `s.includes(sub)`. */
  ghost predicate Occurs(s: string, sub: string) {
    exists i :: OccursAt(s, sub, i)
  }

  /** `s.indexOf(pat)`: the first position at which `pat` occurs, if any. */
  function IndexOf(s: string, pat: string): (r: Option<nat>)
    ensures r.Some? ==> OccursAt(s, pat, r.value)
    ensures r.Some? ==> forall i :: 0 <= i < r.value ==> !OccursAt(s, pat, i)
    ensures r.None? ==> forall i :: !OccursAt(s, pat, i)
    decreases |s|
  {
    if |pat| > |s| then None
    else if s[..|pat|] == pat then Some(0)
    else
      match IndexOf(s[1..], pat)
      case None =>
        assert forall i :: OccursAt(s, pat, i) ==> i == 0 || OccursAt(s[1..], pat, i - 1);
        None
      case Some(k) =>
        assert forall i :: 0 < i ==> OccursAt(s, pat, i) ==> OccursAt(s[1..], pat, i - 1);
        assert OccursAt(s, pat, k + 1) by { assert s[k + 1..k + 1 + |pat|] == s[1..][k..k + |pat|]; }
        Some(k + 1)
  }

  /** `s.includes(pat)`. */
  predicate Includes(s: string, pat: string)
  {
    IndexOf(s, pat).Some?
  }

  lemma IncludesIsOccurs(s: string, pat: string)
    ensures Includes(s, pat) <==> Occurs(s, pat)
  {
    if Occurs(s, pat) {
      var i :| OccursAt(s, pat, i);
    }
  }

  /** `s.replace(pat, rep)` with a string pattern and a replacement
      without `$` patterns: only the first occurrence is replaced, and `s` is returned unchanged when `pat`
      does not occur. */
  function ReplaceFirst(s: string, pat: string, rep: string): (r: string)
    ensures !Occurs(s, pat) ==> r == s
    ensures Occurs(s, pat) ==>
      exists i :: OccursAt(s, pat, i) && (forall j :: 0 <= j < i ==> !OccursAt(s, pat, j))
                  && r == s[..i] + rep + s[i + |pat|..]
  {
    IncludesIsOccurs(s, pat);
    match IndexOf(s, pat)
    case None => s
    case Some(i) => s[..i] + rep + s[i + |pat|..]
  }

  /** `s.substring(0, n)` for `n >= 0`. */
  function Prefix(s: string, n: nat): (r: string)
    ensures |r| == if |s| <= n then |s| else n
    ensures |s| <= n ==> r == s
    ensures r == s[..|r|]
  {
    if |s| <= n then s else s[..n]
  }

  /** The characters JavaScript's `String.prototype.trim` removes
      (WhiteSpace and LineTerminator of ECMAScript). */
  predicate IsWhitespace(c: char) {
    || c == '\t' || c == '\n' || c == '\U{000B}' || c == '\U{000C}' || c == '\r' || c == ' '
    || c == '\U{00A0}' || c == '\U{1680}' || ('\U{2000}' <= c <= '\U{200A}')
    || c == '\U{2028}' || c == '\U{2029}' || c == '\U{202F}' || c == '\U{205F}'
    || c == '\U{3000}' || c == '\U{FEFF}'
  }

  /** Every character of `s` is whitespace. */
  ghost predicate AllWhitespace(s: string) {
    forall i :: 0 <= i < |s| ==> IsWhitespace(s[i])
  }

  /** Drops the leading whitespace: the result is a suffix of `s`, what
      was dropped is all whitespace, and the result does not start with
      whitespace. */
  function TrimStart(s: string): (r: string)
    ensures |r| <= |s| && r == s[|s| - |r|..]
    ensures AllWhitespace(s[..|s| - |r|])
    ensures r != [] ==> !IsWhitespace(r[0])
    decreases |s|
  {
    if s != [] && IsWhitespace(s[0]) then
      var r := TrimStart(s[1..]);
      assert s[..|s| - |r|] == [s[0]] + s[1..][..|s| - 1 - |r|];
      r
    else s
  }

  /** Drops the trailing whitespace: the result is a prefix of `s`, what
      was dropped is all whitespace, and the result does not end with
      whitespace. */
  function TrimEnd(s: string): (r: string)
    ensures |r| <= |s| && r == s[..|r|]
    ensures AllWhitespace(s[|r|..])
    ensures r != [] ==> !IsWhitespace(r[|r| - 1])
    decreases |s|
  {
    if s != [] && IsWhitespace(s[|s| - 1]) then
      var r := TrimEnd(s[..|s| - 1]);
      assert s[|r|..] == s[..|s| - 1][|r|..] + [s[|s| - 1]];
      r
    else s
  }

  /** `r` is `s` cut at `k` and `k + |r|`, and everything cut off is
      whitespace. */
  ghost predicate TrimmedAt(s: string, r: string, k: int) {
    && 0 <= k <= |s| - |r| && r == s[k..k + |r|]
    && AllWhitespace(s[..k]) && AllWhitespace(s[k + |r|..])
  }

  /** `s.trim()`: a piece of `s` with only whitespace around it, which
      neither starts nor ends with whitespace. */
  function Trim(s: string): (r: string)
    ensures r != [] ==> !IsWhitespace(r[0]) && !IsWhitespace(r[|r| - 1])
  {
    TrimEnd(TrimStart(s))
  }

  /** What `s.trim()` returns is a piece of `s` with only whitespace
      around it, cut where the leading whitespace ends. */
  lemma TrimIsTrimmed(s: string)
    ensures TrimmedAt(s, Trim(s), |s| - |TrimStart(s)|)
  {
    CutBothEnds(s, TrimStart(s), Trim(s));
  }

  /** Cutting whitespace off the front of `s` and then off the back of
      what is left leaves a piece of `s` with only whitespace around it. */
  lemma CutBothEnds(s: string, t: string, r: string)
    requires |t| <= |s| && t == s[|s| - |t|..] && AllWhitespace(s[..|s| - |t|])
    requires |r| <= |t| && r == t[..|r|] && AllWhitespace(t[|r|..])
    ensures TrimmedAt(s, r, |s| - |t|)
  {
    var k := |s| - |t|;
    assert r == s[k..k + |r|];
    assert s[k + |r|..] == t[|r|..];
  }

  /** Leading whitespace is removed up to a part that does not start with
      whitespace, and that part is kept as it is. */
  lemma {:induction false} TrimStartThrough(p: string, m: string)
    requires m != [] && !IsWhitespace(m[0])
    ensures TrimStart(p + m) == TrimStart(p) + m
    decreases |p|
  {
    if p == [] {
      assert p + m == m;
    } else {
      assert (p + m)[0] == p[0];
      if IsWhitespace(p[0]) {
        assert (p + m)[1..] == p[1..] + m;
        TrimStartThrough(p[1..], m);
      }
    }
  }

  /** Trailing whitespace is removed back to a part that does not end with
      whitespace, and that part is kept as it is. */
  lemma {:induction false} TrimEndThrough(m: string, q: string)
    requires m != [] && !IsWhitespace(m[|m| - 1])
    ensures TrimEnd(m + q) == m + TrimEnd(q)
    decreases |q|
  {
    if q == [] {
      assert m + q == m;
    } else {
      assert (m + q)[|m + q| - 1] == q[|q| - 1];
      if IsWhitespace(q[|q| - 1]) {
        assert (m + q)[..|m + q| - 1] == m + q[..|q| - 1];
        TrimEndThrough(m, q[..|q| - 1]);
      }
    }
  }

  /** Trimming text around a part that starts and ends with
      non-whitespace trims only what lies before and after it, so that
      part survives whole. */
  lemma TrimAround(p: string, m: string, q: string)
    requires m != [] && !IsWhitespace(m[0]) && !IsWhitespace(m[|m| - 1])
    ensures Trim(p + m + q) == TrimStart(p) + m + TrimEnd(q)
    ensures OccursAt(Trim(p + m + q), m, |TrimStart(p)|)
  {
    assert p + m + q == p + (m + q);
    TrimStartThrough(p, m + q);
    var t := TrimStart(p) + m;
    assert TrimStart(p) + (m + q) == t + q;
    assert t[|t| - 1] == m[|m| - 1];
    TrimEndThrough(t, q);
    OccursBetween(TrimStart(p), m, TrimEnd(q));
  }

  /** `m` occurs in `a + m + b` right after `a`. */
  lemma OccursBetween(a: string, m: string, b: string)
    ensures OccursAt(a + m + b, m, |a|)
  {
    assert (a + m + b)[|a|..|a| + |m|] == m;
  }

  /** ASCII `toLowerCase` of one character. */
  function LowerChar(c: char): char {
    if 'A' <= c <= 'Z' then (c as int + 32) as char else c
  }

  /** `s.toLowerCase()`, restricted to ASCII letters. */
  function ToLowerAscii(s: string): (r: string)
    ensures |r| == |s|
    ensures forall i :: 0 <= i < |s| ==> r[i] == LowerChar(s[i])
  {
    seq(|s|, i requires 0 <= i < |s| => LowerChar(s[i]))
  }

  /** A word that occurs in `s` occurs, lowered, in the lowered `s`. */
  lemma LowerKeepsOccurs(s: string, w: string)
    requires Occurs(s, w)
    ensures Occurs(ToLowerAscii(s), ToLowerAscii(w))
  {
    var i :| OccursAt(s, w, i);
    var l, lw := ToLowerAscii(s), ToLowerAscii(w);
    assert l[i..i + |w|] == lw by {
      forall k | 0 <= k < |w| ensures l[i + k] == lw[k] {
        assert s[i + k] == w[k];
      }
    }
    assert OccursAt(l, lw, i);
  }
}
