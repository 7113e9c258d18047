/**
 * The string operations the Python code relies on: `str.lower()`, the
 * substring test `p in s`, `str.startswith`, `str.split()` (first field
 * only) and `", ".join(...)`.
 *
 * Lower-casing and the regex word-character class are modelled on ASCII;
 * the whitespace set of `split()` is the one Python uses for `str`.
 */
module Text {
  import opened Wrappers

  predicate IsUpper(c: char) { 'A' <= c <= 'Z' }

  predicate IsLetter(c: char) { IsUpper(c) || 'a' <= c <= 'z' }

  predicate IsDigit(c: char) { '0' <= c <= '9' }

  predicate IsAlnum(c: char) { IsLetter(c) || IsDigit(c) }

  /** The regex class `\w`, restricted to ASCII. */
  predicate IsWordChar(c: char) { IsAlnum(c) || c == '_' }

  /** The characters `str.split()` with no argument treats as separators. */
  predicate IsSpace(c: char) {
    || c == ' '
    || '\t' <= c <= '\r'
    || '\U{1C}' <= c <= '\U{1F}'
    || c == '\U{85}' || c == '\U{A0}' || c == '\U{1680}'
    || '\U{2000}' <= c <= '\U{200A}'
    || c == '\U{2028}' || c == '\U{2029}' || c == '\U{202F}' || c == '\U{205F}' || c == '\U{3000}'
  }

  function LowerChar(c: char): (r: char)
    ensures !IsUpper(r)
    ensures IsUpper(c) || r == c
  {
    if IsUpper(c) then (c as int + 32) as char else c
  }

  /** `s.lower()` on the ASCII letters. */
  function Lower(s: string): (r: string)
    ensures |r| == |s|
    ensures forall i :: 0 <= i < |s| ==> r[i] == LowerChar(s[i])
  {
    seq(|s|, i requires 0 <= i < |s| => LowerChar(s[i]))
  }

  /** `p` occurs in `s` starting at index `i`. */
  predicate ContainsAt(s: string, p: string, i: int) {
    0 <= i && i + |p| <= |s| && s[i..i + |p|] == p
  }

  /** Python's `p in s` for strings. */
  predicate Contains(s: string, p: string) {
    exists i :: 0 <= i <= |s| - |p| && ContainsAt(s, p, i)
  }

  /** Python's `s.startswith(p)`. */
  predicate StartsWith(s: string, p: string) {
    |p| <= |s| && s[..|p|] == p
  }

  /** Occurrence is transitive: whatever contains `p` contains every part of `p`. */
  lemma ContainsTransitive(s: string, p: string, q: string)
    requires Contains(s, p) && Contains(p, q)
    ensures Contains(s, q)
  {
    var i :| 0 <= i <= |s| - |p| && ContainsAt(s, p, i);
    var j :| 0 <= j <= |p| - |q| && ContainsAt(p, q, j);
    forall k | 0 <= k < |q|
      ensures s[i + j + k] == q[k]
    {
      assert s[i + j + k] == s[i..i + |p|][j + k];
    }
    assert ContainsAt(s, q, i + j);
  }

  /** `sep.join(xs)`. */
  function Join(sep: string, xs: seq<string>): (r: string)
    ensures |xs| == 1 ==> r == xs[0]
    ensures |xs| > 0 ==> StartsWith(r, xs[0])
    decreases |xs|
  {
    if |xs| == 0 then ""
    else if |xs| == 1 then xs[0]
    else xs[0] + sep + Join(sep, xs[1..])
  }

  /** First index at or after `i` that is not a separator. */
  function SkipSpaces(s: string, i: nat): (j: nat)
    requires i <= |s|
    ensures i <= j <= |s|
    ensures forall k :: i <= k < j ==> IsSpace(s[k])
    ensures j < |s| ==> !IsSpace(s[j])
    decreases |s| - i
  {
    if i < |s| && IsSpace(s[i]) then SkipSpaces(s, i + 1) else i
  }

  /** First index at or after `i` that is a separator (or the end). */
  function FieldEnd(s: string, i: nat): (j: nat)
    requires i <= |s|
    ensures i <= j <= |s|
    ensures forall k :: i <= k < j ==> !IsSpace(s[k])
    ensures j < |s| ==> IsSpace(s[j])
    decreases |s| - i
  {
    if i < |s| && !IsSpace(s[i]) then FieldEnd(s, i + 1) else i
  }

  /**
   * `t` is the first field of `s`: only separators come before index `a`,
   * `t` is a non-empty run of non-separators there, and it ends at a
   * separator or at the end of `s`.
   */
  predicate FirstFieldAt(s: string, a: int, t: string) {
    && 0 <= a && a + |t| <= |s|
    && t != []
    && (forall k :: 0 <= k < a ==> IsSpace(s[k]))
    && s[a..a + |t|] == t
    && (forall k :: 0 <= k < |t| ==> !IsSpace(t[k]))
    && (a + |t| == |s| || IsSpace(s[a + |t|]))
  }

  /** `s.split()[0]` when `s.split()` is non-empty, and `None` otherwise. */
  function FirstField(s: string): (r: Option<string>)
    ensures r.None? <==> forall k :: 0 <= k < |s| ==> IsSpace(s[k])
    ensures r.Some? ==> FirstFieldAt(s, SkipSpaces(s, 0), r.value)
  {
    var a := SkipSpaces(s, 0);
    if a == |s| then None else Some(s[a..FieldEnd(s, a)])
  }

  /** The first field is determined by the string: no other field qualifies. */
  lemma FirstFieldUnique(s: string, a: int, t: string)
    requires FirstFieldAt(s, a, t)
    ensures FirstField(s) == Some(t)
  {
    assert !IsSpace(s[a]) by { assert s[a] == t[0]; }
    var b := SkipSpaces(s, 0);
    assert b == a;
    forall k | a <= k < a + |t|
      ensures !IsSpace(s[k])
    {
      assert s[k] == t[k - a];
    }
    assert FieldEnd(s, a) == a + |t|;
  }
}
