/**
 * The JavaScript string operations the pages and the importer rely on:
 * truthiness of optional strings, `||` defaulting, `trim`, `toLowerCase`
 * and `includes`.
 */
module Text {
  import opened Wrappers

  /** JavaScript truthiness of an optional string: absent, null and "" are falsy. */
  predicate Truthy(o: Option<string>) {
    o.Some? && o.value != ""
  }

  /** `o || fallback` on an optional string. */
  function OrElse(o: Option<string>, fallback: string): string {
    if Truthy(o) then o.value else fallback
  }

  /** `o || null` on an optional string: every falsy value becomes null. */
  function OrNull(o: Option<string>): Option<string> {
    if Truthy(o) then o else None
  }

  /** `s || null` on a string that is always present. */
  function EmptyToNull(s: string): Option<string> {
    if s == "" then None else Some(s)
  }

  /** `||`-defaulting never yields a falsy value when the fallback is truthy,
      and keeps every truthy input verbatim. */
  lemma OrElseDefaults(o: Option<string>, fallback: string)
    requires fallback != ""
    ensures OrElse(o, fallback) != ""
    ensures Truthy(o) <==> (o.Some? && OrElse(o, fallback) == o.value && o.value != "")
  {
  }

  /** The characters `String.prototype.trim` removes: the ECMAScript
      WhiteSpace (TAB, VT, FF, SP, NBSP, ZWNBSP and category Zs) and
      LineTerminator (LF, CR, LS, PS) code points. */
  predicate IsWhitespace(c: char) {
    || c == '\t' || c == '\n' || c == '\U{000B}' || c == '\U{000C}' || c == '\r'
    || c == ' ' || c == '\U{00A0}' || c == '\U{1680}' || ('\U{2000}' <= c <= '\U{200A}')
    || c == '\U{2028}' || c == '\U{2029}' || c == '\U{202F}' || c == '\U{205F}'
    || c == '\U{3000}' || c == '\U{FEFF}'
  }

  predicate AllWhitespace(s: string) {
    forall i :: 0 <= i < |s| ==> IsWhitespace(s[i])
  }

  /** Length of the run of whitespace at the start of s. */
  function LeadingSpace(s: string): (n: nat)
    ensures n <= |s|
    ensures forall i :: 0 <= i < n ==> IsWhitespace(s[i])
    ensures n < |s| ==> !IsWhitespace(s[n])
  {
    if s == [] || !IsWhitespace(s[0]) then 0 else 1 + LeadingSpace(s[1..])
  }

  /** Length of the run of whitespace at the end of s. */
  function TrailingSpace(s: string): (n: nat)
    ensures n <= |s|
    ensures forall i :: |s| - n <= i < |s| ==> IsWhitespace(s[i])
    ensures n < |s| ==> !IsWhitespace(s[|s| - n - 1])
  {
    if s == [] || !IsWhitespace(s[|s| - 1]) then 0 else 1 + TrailingSpace(s[..|s| - 1])
  }

  /** r is what trimming s must give: a contiguous piece of s, with only
      whitespace cut away on either side, and no whitespace left at its ends. */
  ghost predicate IsTrimOf(r: string, s: string) {
    && (exists a, b :: 0 <= a <= b <= |s| && r == s[a..b] && AllWhitespace(s[..a]) && AllWhitespace(s[b..]))
    && (r != "" ==> !IsWhitespace(r[0]) && !IsWhitespace(r[|r| - 1]))
  }

  /** `s.trim()`. */
  function Trim(s: string): (r: string)
    ensures IsTrimOf(r, s)
    ensures r == "" <==> AllWhitespace(s)
  {
    var a := LeadingSpace(s);
    var b := TrailingSpace(s[a..]);
    var r := s[a..|s| - b];
    assert r == s[a..][..|s[a..]| - b];
    assert AllWhitespace(s[..a]);
    var tail := s[|s| - b..];
    assert AllWhitespace(tail) by {
      forall i | 0 <= i < |tail| ensures IsWhitespace(tail[i]) {
        assert tail[i] == s[a..][|s[a..]| - b + i];
      }
    }
    assert r == "" ==> a == |s|;
    assert r != "" ==> !IsWhitespace(r[0]) && !IsWhitespace(r[|r| - 1]);
    r
  }

  /** Trimming twice is trimming once. */
  lemma TrimIdempotent(s: string)
    ensures Trim(Trim(s)) == Trim(s)
  {
    var r := Trim(s);
    var a := LeadingSpace(r);
    if r != "" {
      assert a == 0;
      assert TrailingSpace(r) == 0;
    } else {
      assert AllWhitespace(r);
    }
  }

  /** ASCII stand-in for `toLowerCase` on one character. */
  function LowerChar(c: char): char {
    if 'A' <= c <= 'Z' then (c as int + 32) as char else c
  }

  /** ASCII stand-in for `toLowerCase`. */
  function Lower(s: string): (r: string)
    ensures |r| == |s|
    ensures forall i :: 0 <= i < |s| ==> r[i] == LowerChar(s[i])
  {
    seq(|s|, i requires 0 <= i < |s| => LowerChar(s[i]))
  }

  /** t occurs in s starting at index i. */
  predicate OccursAt(s: string, t: string, i: int) {
    0 <= i && i + |t| <= |s| && s[i..i + |t|] == t
  }

  /** `s.includes(t)`: t occurs in s as a contiguous piece. */
  predicate Contains(s: string, t: string) {
    exists i | 0 <= i <= |s| :: OccursAt(s, t, i)
  }

  /** Every string includes the empty string, and itself. */
  lemma ContainsEmptyAndSelf(s: string)
    ensures Contains(s, "")
    ensures Contains(s, s)
  {
    assert OccursAt(s, "", 0);
    assert OccursAt(s, s, 0);
  }

  /** Lower-casing twice is lower-casing once. */
  lemma LowerIdempotent(s: string)
    ensures Lower(Lower(s)) == Lower(s)
  {
  }

  /** `s.toLowerCase().includes(q.toLowerCase())`: q occurs in s ignoring case. */
  predicate ContainsFolded(s: string, q: string) {
    Contains(Lower(s), Lower(q))
  }

  /** Folded matching does not see the case of the query. */
  lemma ContainsFoldedQueryCase(s: string, q: string)
    ensures ContainsFolded(s, q) <==> ContainsFolded(s, Lower(q))
  {
    LowerIdempotent(q);
  }

  /** Every string matches the empty query. */
  lemma ContainsFoldedEmpty(s: string)
    ensures ContainsFolded(s, "")
  {
    ContainsEmptyAndSelf(Lower(s));
  }
}
