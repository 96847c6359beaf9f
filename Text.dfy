/**
 * The string operations of the ECMAScript standard library that the editor uses:
 * `String.prototype.trim`, `indexOf` on a literal pattern, and the ASCII classes
 * behind the regular-expression escapes `\w` and `\b`.
 */
module Text {
  import opened Wrappers

  /**
   * The characters `trim` removes: WhiteSpace and LineTerminator of ECMAScript
   * (section 12.2 and 12.3 of ECMA-262): tab, vertical tab, form feed, space,
   * no-break space, byte order mark, the space separators of Unicode category Zs,
   * line feed, carriage return, line separator and paragraph separator.
   */
  predicate IsSpace(c: char) {
    || c == '\t' || c == '\U{000B}' || c == '\U{000C}' || c == ' '
    || c == '\U{00A0}' || c == '\U{FEFF}'
    || c == '\U{1680}' || ('\U{2000}' <= c <= '\U{200A}')
    || c == '\U{202F}' || c == '\U{205F}' || c == '\U{3000}'
    || c == '\n' || c == '\r' || c == '\U{2028}' || c == '\U{2029}'
  }

  predicate AllSpace(s: string) {
    forall i | 0 <= i < |s| :: IsSpace(s[i])
  }

  /** The length of the run of whitespace that starts `s`. */
  function LeadingSpaceCount(s: string): (k: nat)
    ensures k <= |s|
    ensures forall i | 0 <= i < k :: IsSpace(s[i])
    ensures k < |s| ==> !IsSpace(s[k])
  {
    if |s| > 0 && IsSpace(s[0]) then 1 + LeadingSpaceCount(s[1..]) else 0
  }

  /** The index at which the run of whitespace that ends `s` begins. */
  function TrailingSpaceStart(s: string): (m: nat)
    ensures m <= |s|
    ensures forall i | m <= i < |s| :: IsSpace(s[i])
    ensures m > 0 ==> !IsSpace(s[m - 1])
  {
    if |s| > 0 && IsSpace(s[|s| - 1]) then TrailingSpaceStart(s[..|s| - 1]) else |s|
  }

  /**
   * `s.trim()`: `s` without its leading and trailing whitespace. The result is empty
   * exactly when `s` is all whitespace, and otherwise it neither starts nor ends with
   * whitespace.
   */
  function Trim(s: string): (r: string)
    ensures |r| <= |s|
    ensures r == [] <==> AllSpace(s)
    ensures r != [] ==> !IsSpace(r[0]) && !IsSpace(r[|r| - 1])
  {
    var a := LeadingSpaceCount(s);
    var b := a + TrailingSpaceStart(s[a..]);
    assert s[a..][..b - a] == s[a..b];
    assert AllSpace(s) ==> a == |s|;
    s[a..b]
  }

  /** What `Trim` removes is whitespace, from the two ends only: the rest is kept as it is. */
  lemma TrimKeepsMiddle(s: string)
    ensures exists a, b | 0 <= a <= b <= |s| :: Trim(s) == s[a..b] && AllSpace(s[..a]) && AllSpace(s[b..])
  {
    var a := LeadingSpaceCount(s);
    var b := a + TrailingSpaceStart(s[a..]);
    assert s[a..][..b - a] == s[a..b];
    assert forall i | b <= i < |s| :: s[i] == s[a..][i - a];
    assert Trim(s) == s[a..b] && AllSpace(s[..a]) && AllSpace(s[b..]);
  }

  /** Trimming twice is trimming once. */
  lemma TrimIdempotent(s: string)
    ensures Trim(Trim(s)) == Trim(s)
  {
    var r := Trim(s);
    if r != [] {
      assert LeadingSpaceCount(r) == 0;
      assert TrailingSpaceStart(r) == |r|;
      assert r[0..][..|r|] == r;
    }
  }

  /** `pat` occurs in `s` starting at position `j`. */
  predicate OccursAt(s: string, pat: string, j: nat) {
    j + |pat| <= |s| && s[j..j + |pat|] == pat
  }

  /**
   * `s.indexOf(pat)`: the first position at which `pat` occurs in `s`, or none.
   */
  function IndexOf(s: string, pat: string): (r: Option<nat>)
    ensures r.Some? ==> OccursAt(s, pat, r.value)
    ensures r.Some? ==> forall j: nat | j < r.value :: !OccursAt(s, pat, j)
    ensures r.None? ==> forall j: nat :: !OccursAt(s, pat, j)
  {
    IndexOfFrom(s, pat, 0)
  }

  function IndexOfFrom(s: string, pat: string, from: nat): (r: Option<nat>)
    requires from <= |s|
    ensures r.Some? ==> from <= r.value && OccursAt(s, pat, r.value)
    ensures r.Some? ==> forall j: nat | from <= j < r.value :: !OccursAt(s, pat, j)
    ensures r.None? ==> forall j: nat | from <= j :: !OccursAt(s, pat, j)
    decreases |s| - from
  {
    if from + |pat| > |s| then None
    else if s[from..from + |pat|] == pat then Some(from)
    else IndexOfFrom(s, pat, from + 1)
  }

  /** The characters of the regular-expression class `\w`: ASCII letters, digits and `_`. */
  predicate IsWordChar(c: char) {
    ('a' <= c <= 'z') || ('A' <= c <= 'Z') || ('0' <= c <= '9') || c == '_'
  }

  predicate IsLower(c: char) {
    'a' <= c <= 'z'
  }

  /** `toUpperCase` on a character of `\w`: lower-case ASCII letters move up, the rest stay. */
  function ToUpper(c: char): (u: char)
    ensures IsLower(c) ==> 'A' <= u <= 'Z' && u as int == c as int - 32
    ensures !IsLower(c) ==> u == c
  {
    if IsLower(c) then (c as int - 32) as char else c
  }

  /** `toLowerCase` restricted to ASCII letters, used to say that upper-casing changes case only. */
  function ToLower(c: char): (l: char)
    ensures 'A' <= c <= 'Z' ==> IsLower(l) && l as int == c as int + 32
    ensures !('A' <= c <= 'Z') ==> l == c
  {
    if 'A' <= c <= 'Z' then (c as int + 32) as char else c
  }
}
