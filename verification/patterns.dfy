/**
 * The two regular expressions `_extract_target` searches for, written out as
 * left-to-right scanners, each paired with a declarative description of the
 * text it accepts:
 *
 *   IPv4:   \b(?:[0-9]{1,3}\.){3}[0-9]{1,3}\b
 *   domain: \b[a-zA-Z0-9][a-zA-Z0-9-]{1,61}[a-zA-Z0-9]\.[a-zA-Z]{2,}\b
 *
 * Neither pattern leaves the regex engine a choice once the start position is
 * fixed: each repetition of digits or label characters must be followed by a
 * literal dot, which its class does not contain, and the final repetition
 * must end at a word boundary. So each scanner answers, for a start index,
 * the unique end index of a match, and `re.search` is the leftmost start
 * index that has one.
 */
module Patterns {
  import opened Wrappers
  import opened Text

  /** Character classes the two patterns repeat. */
  datatype CharClass = Digits | Letters | LabelChars

  predicate InClass(c: char, cls: CharClass) {
    match cls
    case Digits => IsDigit(c)
    case Letters => IsLetter(c)
    case LabelChars => IsAlnum(c) || c == '-'
  }

  /** Length of the longest run of `cls` characters starting at index `i`. */
  function Run(s: string, i: nat, cls: CharClass): (n: nat)
    requires i <= |s|
    ensures i + n <= |s|
    ensures i + n == |s| || !InClass(s[i + n], cls)
    decreases |s| - i
  {
    if i < |s| && InClass(s[i], cls) then 1 + Run(s, i + 1, cls) else 0
  }

  /** Every character of the run belongs to the class. */
  lemma {:induction false} RunInClass(s: string, i: nat, cls: CharClass)
    requires i <= |s|
    ensures forall k :: i <= k < i + Run(s, i, cls) ==> InClass(s[k], cls)
    decreases |s| - i
  {
    if i < |s| && InClass(s[i], cls) {
      RunInClass(s, i + 1, cls);
    }
  }

  /** `\b` in front of a word character at index `i`. */
  predicate BoundaryBefore(s: string, i: nat)
    requires i <= |s|
  {
    i == 0 || !IsWordChar(s[i - 1])
  }

  /** `\b` behind a word character that ends at index `j`. */
  predicate BoundaryAfter(s: string, j: nat)
    requires j <= |s|
  {
    j == |s| || !IsWordChar(s[j])
  }

  /** `t[lo..hi]` is one to three ASCII digits (no range check on the value). */
  predicate OctetBetween(t: string, lo: int, hi: int) {
    0 <= lo && hi <= |t| && 1 <= hi - lo <= 3 && forall k :: lo <= k < hi ==> IsDigit(t[k])
  }

  /** `t` is four octets joined by dots sitting at `p1 < p2 < p3`. */
  predicate QuadAt(t: string, p1: int, p2: int, p3: int) {
    && 0 < p1 < p2 < p3 < |t|
    && t[p1] == '.' && t[p2] == '.' && t[p3] == '.'
    && OctetBetween(t, 0, p1) && OctetBetween(t, p1 + 1, p2)
    && OctetBetween(t, p2 + 1, p3) && OctetBetween(t, p3 + 1, |t|)
  }

  ghost predicate DottedQuad(t: string) {
    exists p1, p2, p3 :: QuadAt(t, p1, p2, p3)
  }

  /**
   * `t` is a domain whose single dot sits at `p`: a 3 to 63 character label of
   * letters, digits and hyphens that starts and ends with a letter or digit,
   * then a dot, then at least two letters.
   */
  predicate DomainAt(t: string, p: int) {
    && 3 <= p <= 63 && p + 3 <= |t|
    && t[p] == '.'
    && IsAlnum(t[0]) && IsAlnum(t[p - 1])
    && (forall k :: 0 <= k < p ==> InClass(t[k], LabelChars))
    && (forall k :: p < k < |t| ==> IsLetter(t[k]))
  }

  ghost predicate DomainShaped(t: string) {
    exists p :: DomainAt(t, p)
  }

  datatype Pattern = Ipv4 | Domain

  /** `s[i..j]` is a match of `pat` that the regex engine would report from index `i`. */
  ghost predicate Matches(pat: Pattern, s: string, i: nat, j: nat) {
    && i <= j <= |s|
    && BoundaryBefore(s, i) && BoundaryAfter(s, j)
    && match pat
       case Ipv4 => DottedQuad(s[i..j])
       case Domain => DomainShaped(s[i..j])
  }

  /** `[0-9]{1,3}\.` at index `i`; the index after the dot. */
  function OctetDot(s: string, i: nat): (r: Option<nat>)
    requires i <= |s|
    ensures r.Some? ==> i + 2 <= r.value <= |s|
  {
    var n := Run(s, i, Digits);
    if 1 <= n <= 3 && i + n < |s| && s[i + n] == '.' then Some(i + n + 1) else None
  }

  function Ipv4End(s: string, i: nat): (r: Option<nat>)
    requires i <= |s|
    ensures r.Some? ==> i < r.value <= |s|
  {
    if !BoundaryBefore(s, i) then None
    else match OctetDot(s, i)
    case None => None
    case Some(a) =>
      match OctetDot(s, a)
      case None => None
      case Some(b) =>
        match OctetDot(s, b)
        case None => None
        case Some(c) =>
          var n := Run(s, c, Digits);
          if 1 <= n <= 3 && BoundaryAfter(s, c + n) then Some(c + n) else None
  }

  function DomainEnd(s: string, i: nat): (r: Option<nat>)
    requires i <= |s|
    ensures r.Some? ==> i < r.value <= |s|
  {
    if !(i < |s| && IsAlnum(s[i]) && BoundaryBefore(s, i)) then None
    else
      var n := Run(s, i, LabelChars);
      var p := i + n;
      if 3 <= n <= 63 && IsAlnum(s[p - 1]) && p < |s| && s[p] == '.' then
        var m := Run(s, p + 1, Letters);
        if m >= 2 && BoundaryAfter(s, p + 1 + m) then Some(p + 1 + m) else None
      else None
  }

  /** End of the match of `pat` starting at index `i`, if there is one. */
  function MatchEnd(pat: Pattern, s: string, i: nat): (r: Option<nat>)
    requires i <= |s|
    ensures r.Some? ==> i < r.value <= |s|
  {
    match pat
    case Ipv4 => Ipv4End(s, i)
    case Domain => DomainEnd(s, i)
  }

  /** A run that stops exactly at `i + n` has length `n`. */
  lemma RunExact(s: string, i: nat, cls: CharClass, n: nat)
    requires i + n <= |s|
    requires forall k :: i <= k < i + n ==> InClass(s[k], cls)
    requires i + n == |s| || !InClass(s[i + n], cls)
    ensures Run(s, i, cls) == n
    decreases n
  {
    if n > 0 {
      RunExact(s, i + 1, cls, n - 1);
    }
  }

  /** What a successful `OctetDot` read: one to three digits, then a dot. */
  lemma OctetDotRead(s: string, i: nat)
    requires i <= |s| && OctetDot(s, i).Some?
    ensures var e := OctetDot(s, i).value - 1; e < |s| && s[e] == '.' && OctetBetween(s, i, e)
  {
    RunInClass(s, i, Digits);
  }

  /** An octet of `s` inside `s[i..j]` is an octet of the slice, shifted by `-i`. */
  lemma OctetSlice(s: string, i: nat, j: nat, lo: int, hi: int)
    requires i <= lo && hi <= j <= |s|
    requires OctetBetween(s, lo, hi)
    ensures OctetBetween(s[i..j], lo - i, hi - i)
  {
    forall k | lo - i <= k < hi - i
      ensures IsDigit(s[i..j][k])
    {
      assert s[i..j][k] == s[i + k];
    }
  }

  lemma Ipv4EndSound(s: string, i: nat)
    requires i <= |s|
    requires Ipv4End(s, i).Some?
    ensures Matches(Ipv4, s, i, Ipv4End(s, i).value)
  {
    var a := OctetDot(s, i).value;
    var b := OctetDot(s, a).value;
    var c := OctetDot(s, b).value;
    var j := Ipv4End(s, i).value;
    OctetDotRead(s, i);
    OctetDotRead(s, a);
    OctetDotRead(s, b);
    RunInClass(s, c, Digits);
    assert OctetBetween(s, c, j);
    var t := s[i..j];
    OctetSlice(s, i, j, i, a - 1);
    OctetSlice(s, i, j, a, b - 1);
    OctetSlice(s, i, j, b, c - 1);
    OctetSlice(s, i, j, c, j);
    assert t[a - 1 - i] == s[a - 1] && t[b - 1 - i] == s[b - 1] && t[c - 1 - i] == s[c - 1];
    assert QuadAt(t, a - 1 - i, b - 1 - i, c - 1 - i);
  }

  /** An octet followed by a dot is exactly what `OctetDot` reads. */
  lemma OctetDotExact(s: string, i: nat, e: nat)
    requires i < e < |s|
    requires OctetBetween(s, i, e) && s[e] == '.'
    ensures OctetDot(s, i) == Some(e + 1)
  {
    RunExact(s, i, Digits, e - i);
  }

  /** An octet read inside the slice `s[i..j]` is an octet of `s`, shifted by `i`. */
  lemma OctetShift(s: string, i: nat, j: nat, lo: int, hi: int)
    requires i <= j <= |s|
    requires OctetBetween(s[i..j], lo, hi)
    ensures OctetBetween(s, i + lo, i + hi)
  {
    forall k | i + lo <= k < i + hi
      ensures IsDigit(s[k])
    {
      assert s[k] == s[i..j][k - i];
    }
  }

  lemma Ipv4EndComplete(s: string, i: nat, j: nat)
    requires Matches(Ipv4, s, i, j)
    ensures Ipv4End(s, i) == Some(j)
  {
    var p1, p2, p3 :| QuadAt(s[i..j], p1, p2, p3);
    QuadInText(s, i, j, p1, p2, p3);
    Ipv4EndFromOctets(s, i, i + p1, i + p2, i + p3, j);
  }

  /** A dotted quad read in the slice `s[i..j]` is one in `s`, shifted by `i`. */
  lemma QuadInText(s: string, i: nat, j: nat, p1: int, p2: int, p3: int)
    requires i <= j <= |s|
    requires QuadAt(s[i..j], p1, p2, p3)
    ensures 0 < p1 < p2 < p3 < j - i
    ensures s[i + p1] == '.' && s[i + p2] == '.' && s[i + p3] == '.'
    ensures OctetBetween(s, i, i + p1) && OctetBetween(s, i + p1 + 1, i + p2)
    ensures OctetBetween(s, i + p2 + 1, i + p3) && OctetBetween(s, i + p3 + 1, j)
  {
    var t := s[i..j];
    assert s[i + p1] == t[p1] && s[i + p2] == t[p2] && s[i + p3] == t[p3];
    OctetShift(s, i, j, 0, p1);
    OctetShift(s, i, j, p1 + 1, p2);
    OctetShift(s, i, j, p2 + 1, p3);
    OctetShift(s, i, j, p3 + 1, |t|);
  }

  /** Four octets of `s` separated by dots at `a`, `b`, `c`, between word boundaries, are read by the scanner. */
  lemma Ipv4EndFromOctets(s: string, i: nat, a: nat, b: nat, c: nat, j: nat)
    requires i < a < b < c < j <= |s|
    requires BoundaryBefore(s, i) && BoundaryAfter(s, j)
    requires s[a] == '.' && s[b] == '.' && s[c] == '.'
    requires OctetBetween(s, i, a) && OctetBetween(s, a + 1, b)
    requires OctetBetween(s, b + 1, c) && OctetBetween(s, c + 1, j)
    ensures Ipv4End(s, i) == Some(j)
  {
    ThreeOctetDots(s, i, a, b, c);
    RunExact(s, c + 1, Digits, j - (c + 1));
    Ipv4EndFromDots(s, i, a + 1, b + 1, c + 1, j);
  }

  /** Three dot-terminated octets are read one after the other. */
  lemma ThreeOctetDots(s: string, i: nat, a: nat, b: nat, c: nat)
    requires i < a < b < c < |s|
    requires s[a] == '.' && s[b] == '.' && s[c] == '.'
    requires OctetBetween(s, i, a) && OctetBetween(s, a + 1, b) && OctetBetween(s, b + 1, c)
    ensures OctetDot(s, i) == Some(a + 1) && OctetDot(s, a + 1) == Some(b + 1)
    ensures OctetDot(s, b + 1) == Some(c + 1)
  {
    OctetDotExact(s, i, a);
    OctetDotExact(s, a + 1, b);
    OctetDotExact(s, b + 1, c);
  }

  /** Three octet-dot reads and a final run of one to three digits ending at a boundary are a match's end. */
  lemma Ipv4EndFromDots(s: string, i: nat, a: nat, b: nat, c: nat, j: nat)
    requires i <= |s| && c <= j <= |s|
    requires BoundaryBefore(s, i) && BoundaryAfter(s, j)
    requires OctetDot(s, i) == Some(a) && a <= |s| && OctetDot(s, a) == Some(b)
    requires b <= |s| && OctetDot(s, b) == Some(c)
    requires Run(s, c, Digits) == j - c && 1 <= j - c <= 3
    ensures Ipv4End(s, i) == Some(j)
  {
  }

  lemma DomainEndSound(s: string, i: nat)
    requires i <= |s|
    requires DomainEnd(s, i).Some?
    ensures Matches(Domain, s, i, DomainEnd(s, i).value)
  {
    var j := DomainEnd(s, i).value;
    var n := Run(s, i, LabelChars);
    RunInClass(s, i, LabelChars);
    RunInClass(s, i + n + 1, Letters);
    var t := s[i..j];
    assert forall k :: 0 <= k < |t| ==> t[k] == s[i + k];
    assert DomainAt(t, n);
  }

  lemma DomainEndComplete(s: string, i: nat, j: nat)
    requires Matches(Domain, s, i, j)
    ensures DomainEnd(s, i) == Some(j)
  {
    var t := s[i..j];
    var p :| DomainAt(t, p);
    assert forall k :: 0 <= k < |t| ==> t[k] == s[i + k];
    RunExact(s, i, LabelChars, p);
    RunExact(s, i + p + 1, Letters, j - (i + p + 1));
  }

  /** The scanners accept exactly the declared matches. */
  lemma MatchEndSpec(pat: Pattern, s: string, i: nat, j: nat)
    requires i <= |s|
    ensures MatchEnd(pat, s, i) == Some(j) <==> Matches(pat, s, i, j)
  {
    match pat
    case Ipv4 =>
      if Ipv4End(s, i).Some? { Ipv4EndSound(s, i); }
      if Matches(pat, s, i, j) { Ipv4EndComplete(s, i, j); }
    case Domain =>
      if DomainEnd(s, i).Some? { DomainEndSound(s, i); }
      if Matches(pat, s, i, j) { DomainEndComplete(s, i, j); }
  }

  /** Leftmost match at or after index `i`, as the pair (start, end). */
  function SearchFrom(pat: Pattern, s: string, i: nat): (r: Option<(nat, nat)>)
    requires i <= |s|
    ensures r.Some? ==> i <= r.value.0 < r.value.1 <= |s| && MatchEnd(pat, s, r.value.0) == Some(r.value.1)
    decreases |s| - i
  {
    match MatchEnd(pat, s, i)
    case Some(j) => Some((i, j))
    case None => if i == |s| then None else SearchFrom(pat, s, i + 1)
  }

  /** No match starts between `i` and the one reported. */
  lemma {:induction false} SearchFromLeftmost(pat: Pattern, s: string, i: nat)
    requires i <= |s|
    ensures SearchFrom(pat, s, i).Some? ==>
      forall k :: i <= k < SearchFrom(pat, s, i).value.0 ==> MatchEnd(pat, s, k).None?
    decreases |s| - i
  {
    if MatchEnd(pat, s, i).None? && i < |s| {
      SearchFromLeftmost(pat, s, i + 1);
    }
  }

  /** Nothing is reported only when no match starts at or after `i`. */
  lemma {:induction false} SearchFromNone(pat: Pattern, s: string, i: nat)
    requires i <= |s|
    ensures SearchFrom(pat, s, i).None? ==> forall k :: i <= k <= |s| ==> MatchEnd(pat, s, k).None?
    decreases |s| - i
  {
    if MatchEnd(pat, s, i).None? && i < |s| {
      SearchFromNone(pat, s, i + 1);
    }
  }

  /** `re.search(pat, s)` reduced to the span of its match. */
  function Search(pat: Pattern, s: string): Option<(nat, nat)> {
    SearchFrom(pat, s, 0)
  }

  /**
   * `Search` reports the leftmost match: the span it returns matches, no match
   * starts earlier, and it reports nothing only when nothing matches.
   */
  lemma SearchSpec(pat: Pattern, s: string)
    ensures Search(pat, s).Some? ==>
      var (i, j) := Search(pat, s).value;
      && Matches(pat, s, i, j)
      && forall k: nat, e: nat :: k < i ==> !Matches(pat, s, k, e)
    ensures Search(pat, s).None? ==> forall k: nat, e: nat :: !Matches(pat, s, k, e)
  {
    SearchFromLeftmost(pat, s, 0);
    SearchFromNone(pat, s, 0);
    if Search(pat, s).Some? {
      var (i, j) := Search(pat, s).value;
      MatchEndSpec(pat, s, i, j);
      forall k: nat, e: nat | k < i
        ensures !Matches(pat, s, k, e)
      {
        MatchEndSpec(pat, s, k, e);
      }
    } else {
      forall k: nat, e: nat
        ensures !Matches(pat, s, k, e)
      {
        if k <= |s| { MatchEndSpec(pat, s, k, e); }
      }
    }
  }

  /** Both patterns need a dot, so text without one has no match. */
  lemma NoDotNoMatch(pat: Pattern, s: string)
    requires forall k :: 0 <= k < |s| ==> s[k] != '.'
    ensures Search(pat, s).None?
  {
    forall i | 0 <= i <= |s|
      ensures MatchEnd(pat, s, i).None?
    {
      match pat
      case Ipv4 =>
        if i < |s| && BoundaryBefore(s, i) {
          var n := Run(s, i, Digits);
          assert OctetDot(s, i).None? by {
            if i + n < |s| { assert s[i + n] != '.'; }
          }
        }
      case Domain =>
    }
  }
}
