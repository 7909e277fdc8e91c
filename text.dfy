/** JavaScript's String.prototype.trim, which both the submission guard and the
    response handling rely on. */
module Text {

  /** The code points trim removes: the WhiteSpace and LineTerminator productions
      of sections 12.2 and 12.3 of ECMA-262 (tab, line feed, vertical tab, form
      feed, carriage return, space, every Zs character, the line and paragraph
      separators and the byte order mark). */
  predicate IsTrimmable(c: char) {
    var n := c as int;
    n == 0x09 || n == 0x0A || n == 0x0B || n == 0x0C || n == 0x0D || n == 0x20 ||
    n == 0xA0 || n == 0x1680 || (0x2000 <= n <= 0x200A) || n == 0x2028 ||
    n == 0x2029 || n == 0x202F || n == 0x205F || n == 0x3000 || n == 0xFEFF
  }

  /** Every character of s at an index in [lo, hi) is trimmable. */
  predicate TrimmableBetween(s: string, lo: int, hi: int)
    requires 0 <= lo && hi <= |s|
  {
    forall k | lo <= k < hi :: IsTrimmable(s[k])
  }

  predicate AllTrimmable(s: string) {
    TrimmableBetween(s, 0, |s|)
  }

  /** r is what is left of s once the trimmable characters before index i and
      after index i + |r| are removed. */
  predicate StripsAt(s: string, i: int, r: string) {
    0 <= i <= |s| - |r| && s[i..i + |r|] == r &&
    TrimmableBetween(s, 0, i) && TrimmableBetween(s, i + |r|, |s|)
  }

  /** r has no trimmable character at either end. */
  predicate Trimmed(r: string) {
    r == [] || (!IsTrimmable(r[0]) && !IsTrimmable(r[|r| - 1]))
  }

  /** The first index at or after i that does not hold a trimmable character
      (|s| if there is none). */
  function SkipForward(s: string, i: nat): (n: nat)
    requires i <= |s|
    ensures i <= n <= |s| && TrimmableBetween(s, i, n)
    ensures n == |s| || !IsTrimmable(s[n])
    decreases |s| - i
  {
    if i < |s| && IsTrimmable(s[i]) then SkipForward(s, i + 1) else i
  }

  /** Scanning back from j, no lower than lo: the index just after the last
      character that is not trimmable (lo if there is none). */
  function SkipBackward(s: string, lo: nat, j: nat): (n: nat)
    requires lo <= j <= |s|
    ensures lo <= n <= j && TrimmableBetween(s, n, j)
    ensures n == lo || !IsTrimmable(s[n - 1])
    decreases j - lo
  {
    if lo < j && IsTrimmable(s[j - 1]) then SkipBackward(s, lo, j - 1) else j
  }

  /** Where what trim keeps of s begins. */
  function TrimOffset(s: string): (i: nat)
    ensures i <= |s| && TrimmableBetween(s, 0, i)
  {
    SkipForward(s, 0)
  }

  /** `s.trim()`: what is left of s once the trimmable characters are removed
      from both ends, with no trimmable character left at either end. */
  function Trim(s: string): (r: string)
    ensures StripsAt(s, TrimOffset(s), r)
    ensures Trimmed(r)
  {
    var i := SkipForward(s, 0);
    var j := SkipBackward(s, i, |s|);
    s[i..j]
  }

  /** The two ensures of Trim determine it: any stripping of s without trimmable
      ends is Trim(s). */
  lemma TrimUnique(s: string, i: int, r: string)
    requires StripsAt(s, i, r) && Trimmed(r)
    ensures r == Trim(s)
  {
    var t, j := Trim(s), TrimOffset(s);
    if r != [] {
      assert s[i] == r[0] && s[i + |r| - 1] == r[|r| - 1];
    }
    if t != [] {
      assert s[j] == t[0] && s[j + |t| - 1] == t[|t| - 1];
    }
    if r != [] && t != [] {
      assert i == j;
      assert i + |r| == j + |t|;
    }
  }

  /** Trim(t), shifted past a whitespace prefix, strips p + t. */
  lemma StripsPastPrefix(p: string, t: string)
    requires AllTrimmable(p)
    ensures StripsAt(p + t, |p| + TrimOffset(t), Trim(t))
  {
    var r, j := Trim(t), TrimOffset(t);
    var s := p + t;
    var i := |p| + j;
    assert s[i..i + |r|] == r by {
      assert s[|p|..] == t;
      assert s[i..i + |r|] == t[j..j + |r|];
    }
    forall k | 0 <= k < i ensures IsTrimmable(s[k]) {
      if k < |p| { assert s[k] == p[k]; } else { assert s[k] == t[k - |p|]; }
    }
    forall k | i + |r| <= k < |s| ensures IsTrimmable(s[k]) {
      assert s[k] == t[k - |p|];
    }
  }

  /** Trim(t) strips t + q when q is whitespace. */
  lemma StripsBeforeSuffix(t: string, q: string)
    requires AllTrimmable(q)
    ensures StripsAt(t + q, TrimOffset(t), Trim(t))
  {
    var r, j := Trim(t), TrimOffset(t);
    var s := t + q;
    assert s[j..j + |r|] == r by {
      assert s[..|t|] == t;
      assert s[j..j + |r|] == t[j..j + |r|];
    }
    forall k | 0 <= k < j ensures IsTrimmable(s[k]) {
      assert s[k] == t[k];
    }
    forall k | j + |r| <= k < |s| ensures IsTrimmable(s[k]) {
      if k < |t| { assert s[k] == t[k]; } else { assert s[k] == q[k - |t|]; }
    }
  }

  /** Leading whitespace never changes what trim returns. */
  lemma TrimIgnoresPrefix(p: string, t: string)
    requires AllTrimmable(p)
    ensures Trim(p + t) == Trim(t)
  {
    StripsPastPrefix(p, t);
    TrimUnique(p + t, |p| + TrimOffset(t), Trim(t));
  }

  /** Trailing whitespace never changes what trim returns. */
  lemma TrimIgnoresSuffix(t: string, q: string)
    requires AllTrimmable(q)
    ensures Trim(t + q) == Trim(t)
  {
    StripsBeforeSuffix(t, q);
    TrimUnique(t + q, TrimOffset(t), Trim(t));
  }

  /** Leading and trailing whitespace never change what trim returns. */
  lemma TrimIgnoresPadding(p: string, t: string, q: string)
    requires AllTrimmable(p) && AllTrimmable(q)
    ensures Trim(p + t + q) == Trim(t)
  {
    TrimIgnoresSuffix(p + t, q);
    TrimIgnoresPrefix(p, t);
  }

  lemma TrimIdempotent(s: string)
    ensures Trim(Trim(s)) == Trim(s)
  {
    var r := Trim(s);
    assert StripsAt(r, 0, r);
    TrimUnique(r, 0, r);
  }

  /** Trimming leaves the empty string exactly when every character is trimmable. */
  lemma BlankIffAllTrimmable(s: string)
    ensures Trim(s) == [] <==> AllTrimmable(s)
  {
    var r, j := Trim(s), TrimOffset(s);
    if r != [] {
      assert s[j] == r[0];
    } else if AllTrimmable(s) {
      assert StripsAt(s, 0, []);
    }
  }

  /** `!s.trim()`: the string is nothing but whitespace. */
  predicate IsBlank(s: string)
    ensures IsBlank(s) <==> AllTrimmable(s)
  {
    BlankIffAllTrimmable(s);
    Trim(s) == []
  }
}
