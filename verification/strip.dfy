/** Python's `str.strip()` with no argument: removes leading and trailing
    whitespace, where whitespace is what `str.isspace()` accepts. */
module PyStrip {

  /** The code points CPython treats as whitespace (`Py_UNICODE_ISSPACE`):
      the ASCII controls TAB..CR and FS..US, SPACE, NEL, NO-BREAK SPACE, and
      the Unicode space separators and line/paragraph separators. */
  predicate IsSpace(c: char) {
    var n := c as int;
    || (0x09 <= n <= 0x0D)
    || (0x1C <= n <= 0x20)
    || n == 0x85
    || n == 0xA0
    || n == 0x1680
    || (0x2000 <= n <= 0x200A)
    || n == 0x2028
    || n == 0x2029
    || n == 0x202F
    || n == 0x205F
    || n == 0x3000
  }

  predicate AllSpace(s: string) {
    forall k :: 0 <= k < |s| ==> IsSpace(s[k])
  }

  /** Every character of `s` from position `lo` up to `hi` is whitespace. */
  predicate SpaceBetween(s: string, lo: int, hi: int) {
    forall k :: lo <= k < hi && 0 <= k < |s| ==> IsSpace(s[k])
  }

  /** `r` neither starts nor ends with whitespace. */
  predicate Trimmed(r: string) {
    r == [] || (!IsSpace(r[0]) && !IsSpace(r[|r| - 1]))
  }

  /** The specification of stripping: `r` is the slice `s[i..j]` obtained by
      cutting a whitespace-only prefix and a whitespace-only suffix, and `r`
      itself is trimmed. */
  ghost predicate IsStripOf(s: string, r: string) {
    exists i, j :: StripsAt(s, i, j, r)
  }

  /** `r` is `s` with the whitespace-only `s[..i]` and `s[j..]` cut off. */
  predicate StripsAt(s: string, i: int, j: int, r: string) {
    && 0 <= i <= j <= |s| && r == s[i..j]
    && SpaceBetween(s, 0, i) && SpaceBetween(s, j, |s|) && Trimmed(r)
  }

  /** Drops leading whitespace (`str.lstrip()`). */
  function TrimLeft(s: string): (r: string)
    ensures |r| <= |s| && r == s[|s| - |r|..]
    ensures SpaceBetween(s, 0, |s| - |r|)
    ensures r == [] || !IsSpace(r[0])
    decreases |s|
  {
    if |s| > 0 && IsSpace(s[0]) then
      var r := TrimLeft(s[1..]);
      assert s[1..][|s| - 1 - |r|..] == s[|s| - |r|..];
      assert forall k :: 1 <= k < |s| - |r| ==> s[1..][k - 1] == s[k];
      r
    else
      s
  }

  /** Drops trailing whitespace (`str.rstrip()`). */
  function TrimRight(s: string): (r: string)
    ensures |r| <= |s| && r == s[..|r|]
    ensures SpaceBetween(s, |r|, |s|)
    ensures r == [] || !IsSpace(r[|r| - 1])
    decreases |s|
  {
    if |s| > 0 && IsSpace(s[|s| - 1]) then
      var t := s[..|s| - 1];
      var r := TrimRight(t);
      assert t[..|r|] == s[..|r|];
      assert forall k :: |r| <= k < |t| ==> t[k] == s[k];
      r
    else
      s
  }

  /** `str.strip()`. */
  function Strip(s: string): (r: string)
    ensures IsStripOf(s, r)
  {
    var t := TrimLeft(s);
    var r := TrimRight(t);
    CutsCompose(s, t, r);
    r
  }

  /** Cutting a whitespace prefix to get `t`, then a whitespace suffix of
      `t` to get `r`, cuts `s[..i]` and `s[i + |r|..]` from `s`. */
  lemma CutsCompose(s: string, t: string, r: string)
    requires |t| <= |s| && t == s[|s| - |t|..] && SpaceBetween(s, 0, |s| - |t|)
    requires t == [] || !IsSpace(t[0])
    requires |r| <= |t| && r == t[..|r|] && SpaceBetween(t, |r|, |t|)
    requires r == [] || !IsSpace(r[|r| - 1])
    ensures StripsAt(s, |s| - |t|, |s| - |t| + |r|, r)
  {
    var i := |s| - |t|;
    assert r == s[i..i + |r|];
    forall k | i + |r| <= k < |s| ensures IsSpace(s[k]) {
      assert s[k] == t[k - i];
    }
    if r != [] {
      assert r[0] == t[0];
    }
  }

  /** The slice a strip keeps is determined by `s`: two results of stripping
      the same string are equal. */
  lemma StripOfUnique(s: string, r1: string, r2: string)
    requires IsStripOf(s, r1) && IsStripOf(s, r2)
    ensures r1 == r2
  {
    var i1, j1 :| StripsAt(s, i1, j1, r1);
    var i2, j2 :| StripsAt(s, i2, j2, r2);
    if r1 != [] && r2 != [] {
      SameCut(s, i1, i2);
      SameCut(s, i2, i1);
      SameEnd(s, j1, j2);
      SameEnd(s, j2, j1);
    }
  }

  /** A whitespace-only prefix cannot reach past a non-whitespace character. */
  lemma SameCut(s: string, i: nat, k: nat)
    requires i < |s| && !IsSpace(s[i]) && k <= |s| && SpaceBetween(s, 0, k)
    ensures k <= i
  {
  }

  /** A whitespace-only suffix cannot start before a non-whitespace character. */
  lemma SameEnd(s: string, j: nat, k: nat)
    requires 0 < j <= |s| && !IsSpace(s[j - 1]) && k <= |s| && SpaceBetween(s, k, |s|)
    ensures j <= k
  {
  }

  /** When a strip keeps nothing, every character lies in the cut prefix or
      the cut suffix. */
  lemma AllSpaceAround(s: string, i: nat, j: nat, k: nat)
    requires i == j <= |s| && k < |s|
    requires SpaceBetween(s, 0, i) && SpaceBetween(s, j, |s|)
    ensures IsSpace(s[k])
  {
  }

  /** Stripping keeps nothing exactly when the string is all whitespace
      (Python: `not s.strip()` iff `s` is empty or `s.isspace()`). */
  lemma StripEmptyIffAllSpace(s: string)
    ensures Strip(s) == [] <==> AllSpace(s)
  {
    var r := Strip(s);
    var i, j :| StripsAt(s, i, j, r);
    if r == [] {
      forall k | 0 <= k < |s| ensures IsSpace(s[k]) {
        AllSpaceAround(s, i, j, k);
      }
    } else {
      assert !IsSpace(s[i]);
    }
  }

  /** A trimmed string is its own strip. */
  lemma StripOfTrimmed(r: string)
    requires Trimmed(r)
    ensures Strip(r) == r
  {
    assert r[..0] == [] && r[|r|..] == [] && r[0..|r|] == r;
    assert StripsAt(r, 0, |r|, r);
    StripOfUnique(r, Strip(r), r);
  }

  /** Stripping twice is stripping once. */
  lemma StripIdempotent(s: string)
    ensures Strip(Strip(s)) == Strip(s)
  {
    StripOfTrimmed(Strip(s));
  }

  /** The result of `Strip` is trimmed: no leading or trailing whitespace. */
  lemma StripTrimmed(s: string)
    ensures Strip(s) != [] ==> !IsSpace(Strip(s)[0]) && !IsSpace(Strip(s)[|Strip(s)| - 1])
  {
  }
}
