/** String primitives the forms and the board view use: `trim`, ASCII
    `toLowerCase`, `includes`, ordinal string comparison and decimal rendering. */
module Text {

  /** The characters `String.prototype.trim` removes: ECMAScript's WhiteSpace
      (tab, vertical tab, form feed, byte order mark and the Zs space
      separators) and its LineTerminators. */
  predicate IsSpace(c: char) {
    || c == '\t' || c == '\U{000B}' || c == '\U{000C}' || c == '\U{FEFF}'
    || c == ' ' || c == '\U{00A0}' || c == '\U{1680}' || '\U{2000}' <= c <= '\U{200A}'
    || c == '\U{202F}' || c == '\U{205F}' || c == '\U{3000}'
    || c == '\n' || c == '\r' || c == '\U{2028}' || c == '\U{2029}'
  }

  /** How many spaces `s` starts with. */
  function LeadingSpaces(s: string): (n: nat)
    ensures n <= |s|
    ensures forall i :: 0 <= i < n ==> IsSpace(s[i])
    ensures n < |s| ==> !IsSpace(s[n])
  {
    if s != [] && IsSpace(s[0]) then
      var n := 1 + LeadingSpaces(s[1..]);
      assert forall i :: 1 <= i < n ==> s[i] == s[1..][i - 1];
      n
    else 0
  }

  /** Where the spaces that `s` ends with begin. */
  function TrailingStart(s: string): (n: nat)
    ensures n <= |s|
    ensures forall i :: n <= i < |s| ==> IsSpace(s[i])
    ensures n > 0 ==> !IsSpace(s[n - 1])
  {
    if s != [] && IsSpace(s[|s| - 1]) then TrailingStart(s[..|s| - 1]) else |s|
  }

  /** `r` is the piece of `s` starting at `lo`, and everything around it is space. */
  predicate CutAt(s: string, r: string, lo: int) {
    && 0 <= lo <= |s| - |r| && r == s[lo..lo + |r|]
    && (forall i :: 0 <= i < lo ==> IsSpace(s[i]))
    && (forall i :: lo + |r| <= i < |s| ==> IsSpace(s[i]))
  }

  /** `s.trim()`: a contiguous piece of `s` with no space at either end, and
      only spaces cut off around it. */
  function Trim(s: string): (r: string)
    ensures exists lo :: CutAt(s, r, lo)
    ensures r == [] || (!IsSpace(r[0]) && !IsSpace(r[|r| - 1]))
  {
    var lo := LeadingSpaces(s);
    var hi := lo + TrailingStart(s[lo..]);
    TrimCut(s);
    TrimEnds(s);
    s[lo..hi]
  }

  /** Only spaces lie around the piece between the leading spaces and the
      trailing ones. */
  lemma TrimCut(s: string)
    ensures var lo := LeadingSpaces(s);
      CutAt(s, s[lo..lo + TrailingStart(s[lo..])], lo)
  {
    TrimTail(s, LeadingSpaces(s));
  }

  /** Past the trailing start of a suffix, `s` holds only spaces. */
  lemma TrimTail(s: string, lo: nat)
    requires lo <= |s|
    ensures forall i :: lo + TrailingStart(s[lo..]) <= i < |s| ==> IsSpace(s[i])
  {
    var t := s[lo..];
    forall i | lo + TrailingStart(t) <= i < |s| ensures IsSpace(s[i]) {
      assert s[i] == t[i - lo];
    }
  }

  /** That piece starts and ends with a character that is not a space. */
  lemma TrimEnds(s: string)
    ensures var lo := LeadingSpaces(s);
      var hi := lo + TrailingStart(s[lo..]);
      lo < hi ==> !IsSpace(s[lo]) && !IsSpace(s[hi - 1])
  {
    var lo := LeadingSpaces(s);
    var hi := lo + TrailingStart(s[lo..]);
    if lo < hi {
      assert s[hi - 1] == s[lo..][hi - 1 - lo];
    }
  }

  /** `!s.trim()`: the string is empty or all spaces. */
  predicate IsBlank(s: string) {
    Trim(s) == ""
  }

  lemma {:induction false} BlankIffAllSpaces(s: string)
    ensures IsBlank(s) <==> forall i :: 0 <= i < |s| ==> IsSpace(s[i])
  {
    var r := Trim(s);
    var lo :| CutAt(s, r, lo);
    if r != "" {
      assert !IsSpace(s[lo]);
    }
  }

  /** Trimming twice is trimming once. */
  lemma TrimIdempotent(s: string)
    ensures Trim(Trim(s)) == Trim(s)
  {
    var r := Trim(s);
    assert LeadingSpaces(r) == 0;
    assert r[0..] == r;
    assert TrailingStart(r) == |r|;
  }

  predicate IsUpper(c: char) {
    'A' <= c <= 'Z'
  }

  function LowerChar(c: char): char {
    if IsUpper(c) then (c as int + 32) as char else c
  }

  /** `s.toLowerCase()` on the ASCII letters: no upper-case letter is left,
      each one is replaced by its lower-case partner, and every other
      character stays where it was. */
  function Lower(s: string): (r: string)
    ensures |r| == |s|
    ensures forall i :: 0 <= i < |r| ==> !IsUpper(r[i])
    ensures forall i :: 0 <= i < |s| && !IsUpper(s[i]) ==> r[i] == s[i]
    ensures forall i :: 0 <= i < |s| && IsUpper(s[i]) ==> r[i] as int == s[i] as int + 32
  {
    seq(|s|, i requires 0 <= i < |s| => LowerChar(s[i]))
  }

  /** Lower-casing twice is lower-casing once. */
  lemma LowerIdempotent(s: string)
    ensures Lower(Lower(s)) == Lower(s)
  {
    var r := Lower(s);
    assert forall i :: 0 <= i < |r| ==> Lower(r)[i] == r[i];
  }

  predicate OccursAt(s: string, sub: string, lo: int) {
    0 <= lo <= |s| - |sub| && s[lo..lo + |sub|] == sub
  }

  /** `s.includes(sub)` */
  predicate Contains(s: string, sub: string) {
    exists lo :: 0 <= lo <= |s| && OccursAt(s, sub, lo)
  }

  predicate IsPrefix(pre: string, s: string) {
    |pre| <= |s| && s[..|pre|] == pre
  }

  /** Does `s` contain `sub`, searched position by position from `from`. */
  function ContainsFrom(s: string, sub: string, from: nat): (b: bool)
    requires from <= |s|
    ensures b <==> exists lo :: from <= lo <= |s| && OccursAt(s, sub, lo)
    decreases |s| - from
  {
    if IsPrefix(sub, s[from..]) then
      assert s[from..][..|sub|] == s[from..from + |sub|];
      assert OccursAt(s, sub, from);
      true
    else if from == |s| then
      assert forall lo :: from <= lo <= |s| && OccursAt(s, sub, lo) ==> lo == from;
      false
    else
      var b := ContainsFrom(s, sub, from + 1);
      assert !OccursAt(s, sub, from) by {
        if |sub| <= |s| - from {
          assert s[from..from + |sub|] == s[from..][..|sub|];
        }
      }
      b
  }

  /** A decision procedure for `Contains`. */
  function Includes(s: string, sub: string): (b: bool)
    ensures b <==> Contains(s, sub)
  {
    ContainsFrom(s, sub, 0)
  }

  /** Ordinal comparison by code unit: negative, zero or positive. */
  function CompareStrings(a: string, b: string): (r: int)
    ensures r == 0 <==> a == b
    ensures -1 <= r <= 1
  {
    if a == [] && b == [] then 0
    else if a == [] then -1
    else if b == [] then 1
    else if a[0] < b[0] then -1
    else if a[0] > b[0] then 1
    else
      var r := CompareStrings(a[1..], b[1..]);
      assert a == [a[0]] + a[1..] && b == [b[0]] + b[1..];
      r
  }

  lemma {:induction false} CompareStringsAntisymmetric(a: string, b: string)
    ensures CompareStrings(a, b) == -CompareStrings(b, a)
  {
    if a != [] && b != [] && a[0] == b[0] {
      CompareStringsAntisymmetric(a[1..], b[1..]);
    }
  }

  lemma {:induction false} CompareStringsTransitive(a: string, b: string, c: string)
    requires CompareStrings(a, b) <= 0 && CompareStrings(b, c) <= 0
    ensures CompareStrings(a, c) <= 0
  {
    if a != [] && b != [] && c != [] && a[0] == b[0] && b[0] == c[0] {
      CompareStringsTransitive(a[1..], b[1..], c[1..]);
    }
  }

  /** Strings that agree up to position `k` and differ there are ordered by
      the code units at `k`. */
  lemma {:induction false} CompareStringsAt(a: string, b: string, k: nat)
    requires k < |a| && k < |b| && a[..k] == b[..k] && a[k] > b[k]
    ensures CompareStrings(a, b) == 1
  {
    if k > 0 {
      assert a[0] == a[..k][0] && b[0] == b[..k][0];
      assert a[1..][..k - 1] == a[..k][1..] && b[1..][..k - 1] == b[..k][1..];
      CompareStringsAt(a[1..], b[1..], k - 1);
    }
  }

  function DigitChar(d: nat): (c: char)
    requires d < 10
    ensures '0' <= c <= '9' && c as int - '0' as int == d
  {
    ('0' as int + d) as char
  }

  /** The number a string of decimal digits denotes. */
  function DigitsValue(s: string): nat {
    if s == [] then 0
    else
      var d := s[|s| - 1] as int - '0' as int;
      DigitsValue(s[..|s| - 1]) * 10 + (if 0 <= d then d else 0)
  }

  /** The decimal rendering of a non-negative integer, as template literals
      print it: digits without a leading zero that denote `n`. */
  function Decimal(n: nat): (r: string)
    ensures |r| >= 1
    ensures forall i :: 0 <= i < |r| ==> '0' <= r[i] <= '9'
    ensures |r| > 1 ==> r[0] != '0'
    ensures DigitsValue(r) == n
  {
    if n < 10 then [DigitChar(n)]
    else
      var r := Decimal(n / 10) + [DigitChar(n % 10)];
      assert r[..|r| - 1] == Decimal(n / 10);
      r
  }

  /** Different numbers render differently. */
  lemma DecimalInjective(m: nat, n: nat)
    ensures Decimal(m) == Decimal(n) <==> m == n
  {
    if Decimal(m) == Decimal(n) {
      assert DigitsValue(Decimal(m)) == DigitsValue(Decimal(n));
    }
  }
}
