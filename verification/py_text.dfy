/**
 * The few Python string operations the scripts rely on: the `in` operator on
 * two strings, `str.endswith`, `str.strip()` and `str.lower()`.
 */
module PyText {

  /** `p` is a prefix of `s` (Python `s.startswith(p)`). */
  predicate IsPrefix(p: string, s: string) {
    |p| <= |s| && s[..|p|] == p
  }

  /** Python's `sub in s` for two strings: `sub` occurs at some offset of `s`. */
  predicate Contains(s: string, sub: string) {
    exists i :: 0 <= i <= |s| && IsPrefix(sub, s[i..])
  }

  /** Python's `s.endswith(suffix)`. */
  predicate EndsWith(s: string, suffix: string) {
    |suffix| <= |s| && s[|s| - |suffix|..] == suffix
  }

  /** An occurrence at offset `i` witnesses `Contains`. */
  lemma ContainsAt(s: string, sub: string, i: nat)
    requires i + |sub| <= |s| && s[i..i + |sub|] == sub
    ensures Contains(s, sub)
  {
    assert IsPrefix(sub, s[i..]);
  }

  /**
   * Containment is transitive: every string that contains `mid` contains
   * whatever `mid` contains. This is what lets a short keyword shadow a
   * longer one of a later bucket.
   */
  lemma ContainsTransitive(s: string, mid: string, sub: string)
    requires Contains(s, mid) && Contains(mid, sub)
    ensures Contains(s, sub)
  {
    var i :| 0 <= i <= |s| && IsPrefix(mid, s[i..]);
    var j :| 0 <= j <= |mid| && IsPrefix(sub, mid[j..]);
    assert s[i..][..|mid|] == mid;
    assert mid[j..][..|sub|] == sub;
    forall k | 0 <= k < |sub|
      ensures s[i + j + k] == sub[k]
    {
      assert sub[k] == mid[j + k];
      assert mid[j + k] == s[i..][j + k];
    }
    assert s[i + j..i + j + |sub|] == sub;
    ContainsAt(s, sub, i + j);
  }

  /** A suffix is kept by prepending anything. */
  lemma EndsWithAppend(prefix: string, s: string, suffix: string)
    requires EndsWith(s, suffix)
    ensures EndsWith(prefix + s, suffix)
  {
    assert (prefix + s)[|prefix + s| - |suffix|..] == s[|s| - |suffix|..];
  }

  /**
   * Python's `str.isspace()` for one character: the ASCII controls TAB to CR,
   * the separators 0x1C-0x1F, SPACE, NEL, NO-BREAK SPACE and the Unicode
   * space separators and line/paragraph separators.
   */
  predicate IsSpace(c: char) {
    var n := c as int;
    (9 <= n <= 13) || (0x1C <= n <= 0x20) || n == 0x85 || n == 0xA0 || n == 0x1680
    || (0x2000 <= n <= 0x200A) || n == 0x2028 || n == 0x2029 || n == 0x202F
    || n == 0x205F || n == 0x3000
  }

  /** Python's `s.lstrip()`: drops the leading whitespace. */
  function LStrip(s: string): (r: string)
    ensures |r| <= |s| && r == s[|s| - |r|..]
    ensures forall k :: 0 <= k < |s| - |r| ==> IsSpace(s[k])
    ensures r != [] ==> !IsSpace(r[0])
  {
    if s != [] && IsSpace(s[0]) then LStrip(s[1..]) else s
  }

  /** Python's `s.rstrip()`: drops the trailing whitespace. */
  function RStrip(s: string): (r: string)
    ensures |r| <= |s| && r == s[..|r|]
    ensures forall k :: |r| <= k < |s| ==> IsSpace(s[k])
    ensures r != [] ==> !IsSpace(r[|r| - 1])
  {
    if s != [] && IsSpace(s[|s| - 1]) then RStrip(s[..|s| - 1]) else s
  }

  /** Python's `s.strip()` with no argument. */
  function Strip(s: string): string {
    RStrip(LStrip(s))
  }

  /**
   * What `strip()` promises: the result is a contiguous piece of the input,
   * everything cut away is whitespace, and the result neither starts nor ends
   * with whitespace.
   */
  lemma StripSpec(s: string)
    ensures var r := Strip(s);
      && |r| <= |s|
      && (exists lo :: 0 <= lo <= |s| - |r| && IsPrefix(r, s[lo..])
            && (forall k :: 0 <= k < lo ==> IsSpace(s[k]))
            && (forall k :: lo + |r| <= k < |s| ==> IsSpace(s[k])))
      && (r != [] ==> !IsSpace(r[0]) && !IsSpace(r[|r| - 1]))
  {
    var r := Strip(s);
    var lo := |s| - |LStrip(s)|;
    StripAt(s);
    assert 0 <= lo <= |s| - |r|;
    assert IsPrefix(r, s[lo..]);
    StripEnds(s);
  }

  /** `strip()` keeps the piece of `s` that starts where the leading whitespace ends. */
  lemma StripAt(s: string)
    ensures var l := LStrip(s);
      var r := RStrip(l);
      var lo := |s| - |l|;
      && lo + |r| <= |s|
      && IsPrefix(r, s[lo..])
      && (forall k :: 0 <= k < lo ==> IsSpace(s[k]))
      && (forall k :: lo + |r| <= k < |s| ==> IsSpace(s[k]))
  {
    var l := LStrip(s);
    var r := RStrip(l);
    var lo := |s| - |l|;
    assert s[lo..] == l;
    assert l[..|r|] == r;
    forall k | lo + |r| <= k < |s|
      ensures IsSpace(s[k])
    {
      assert s[k] == l[k - lo];
    }
  }

  /** The stripped text neither starts nor ends with whitespace. */
  lemma StripEnds(s: string)
    ensures var r := Strip(s);
      r != [] ==> !IsSpace(r[0]) && !IsSpace(r[|r| - 1])
  {
    var l := LStrip(s);
    assert RStrip(l) != [] ==> RStrip(l)[0] == l[0];
  }

  /** Appending whitespace does not change the stripped text. */
  lemma StripTrailingSpace(s: string, c: char)
    requires IsSpace(c)
    ensures Strip(s + [c]) == Strip(s)
  {
    LStripAppendSpace(s, c);
    var l := LStrip(s);
    if l == [] {
      assert LStrip(s + [c]) == [];
    } else {
      assert LStrip(s + [c]) == l + [c];
      assert (l + [c])[..|l|] == l;
    }
  }

  /** Left-stripping `s + [c]` for a whitespace `c`. */
  lemma {:induction false} LStripAppendSpace(s: string, c: char)
    requires IsSpace(c)
    ensures LStrip(s + [c]) == if LStrip(s) == [] then [] else LStrip(s) + [c]
    decreases |s|
  {
    if s == [] {
      assert LStrip([c]) == LStrip([c][1..]);
    } else if IsSpace(s[0]) {
      assert (s + [c])[1..] == s[1..] + [c];
      LStripAppendSpace(s[1..], c);
    } else {
      assert (s + [c])[0] == s[0];
    }
  }

  /** Python's `str.lower()` on one character, for the ASCII letters. */
  function LowerChar(c: char): (r: char)
  {
    if 'A' <= c <= 'Z' then (c as int + 32) as char else c
  }

  /** Python's `s.lower()`, for the ASCII letters. */
  function Lower(s: string): (r: string)
    ensures |r| == |s|
    ensures forall k :: 0 <= k < |s| ==> r[k] == LowerChar(s[k])
    ensures forall k :: 0 <= k < |r| ==> !('A' <= r[k] <= 'Z')
  {
    if s == [] then [] else [LowerChar(s[0])] + Lower(s[1..])
  }

  /** Lower-casing twice is lower-casing once: text already lower-cased is left as it is. */
  lemma {:induction false} LowerIdempotent(s: string)
    ensures Lower(Lower(s)) == Lower(s)
    decreases |s|
  {
    if s != [] {
      LowerIdempotent(s[1..]);
      assert Lower(s)[1..] == Lower(s[1..]);
    }
  }
}
