/**
 * The textual UUID layout of RFC 4122 section 3 (8-4-4-4-12 hexadecimal
 * groups separated by hyphens): the importer's `isUuid` check, the layout
 * it gives an MD5 digest, and the event form's version-4 fallback template.
 */
module Uuid {
  import opened Wrappers

  predicate IsHexDigit(c: char) {
    ('0' <= c <= '9') || ('a' <= c <= 'f') || ('A' <= c <= 'F')
  }

  predicate IsLowerHexDigit(c: char) {
    ('0' <= c <= '9') || ('a' <= c <= 'f')
  }

  predicate AllHex(s: string) {
    forall i :: 0 <= i < |s| ==> IsHexDigit(s[i])
  }

  predicate AllLowerHex(s: string) {
    forall i :: 0 <= i < |s| ==> IsLowerHexDigit(s[i])
  }

  /** Lengths of the hexadecimal groups of the textual layout. */
  const Groups: seq<nat> := [8, 4, 4, 4, 12]

  /** s is groups[0] hex digits, '-', groups[1] hex digits, '-', ... with
      nothing before or after: the anchored, case-insensitive regular
      expression of the importer, read group by group. */
  predicate MatchGroups(s: string, groups: seq<nat>)
    decreases |groups|
  {
    if |groups| == 0 then false
    else if |groups| == 1 then |s| == groups[0] && AllHex(s)
    else
      && |s| > groups[0]
      && AllHex(s[..groups[0]])
      && s[groups[0]] == '-'
      && MatchGroups(s[groups[0] + 1..], groups[1..])
  }

  /** `isUuid(v)`: v is present, non-empty and matches the layout. */
  predicate IsUuid(v: Option<string>) {
    v.Some? && v.value != "" && MatchGroups(v.value, Groups)
  }

  /** Positions of the four hyphens in the 36-character layout. */
  predicate IsHyphenPosition(i: int) {
    i == 8 || i == 13 || i == 18 || i == 23
  }

  /** Character-by-character description of the layout. */
  predicate Layout(s: string) {
    && |s| == 36
    && forall i :: 0 <= i < 36 ==> if IsHyphenPosition(i) then s[i] == '-' else IsHexDigit(s[i])
  }

  /** The last group alone. */
  lemma MatchLastGroup(s: string)
    ensures MatchGroups(s, [12]) <==> |s| == 12 && AllHex(s)
  {
  }

  /** Peeling one group off the front of a layout. */
  lemma MatchStep(s: string, g: nat, rest: seq<nat>)
    requires |rest| > 0
    ensures MatchGroups(s, [g] + rest) <==>
      |s| > g && AllHex(s[..g]) && s[g] == '-' && MatchGroups(s[g + 1..], rest)
  {
    assert ([g] + rest)[1..] == rest;
  }

  /** The group-by-group reading of the regular expression and the
      character-by-character layout accept exactly the same strings. */
  lemma MatchIffLayout(s: string)
    ensures MatchGroups(s, Groups) <==> Layout(s)
  {
    assert Groups == [8] + [4, 4, 4, 12];
    assert [4, 4, 4, 12] == [4] + [4, 4, 12];
    assert [4, 4, 12] == [4] + [4, 12];
    assert [4, 12] == [4] + [12];
    MatchStep(s, 8, [4, 4, 4, 12]);
    if |s| > 8 {
      var s1 := s[9..];
      MatchStep(s1, 4, [4, 4, 12]);
      if |s1| > 4 {
        var s2 := s1[5..];
        MatchStep(s2, 4, [4, 12]);
        if |s2| > 4 {
          var s3 := s2[5..];
          MatchStep(s3, 4, [12]);
          if |s3| > 4 {
            var s4 := s3[5..];
            MatchLastGroup(s4);
            assert s4 == s[24..];
            assert s3 == s[19..];
            assert s2 == s[14..];
            assert s1 == s[9..];
            if Layout(s) {
              assert AllHex(s[..8]) && AllHex(s1[..4]) && AllHex(s2[..4]) && AllHex(s3[..4]) && AllHex(s4);
            }
            if MatchGroups(s, Groups) {
              assert |s| == 36;
              forall i | 0 <= i < 36
                ensures if IsHyphenPosition(i) then s[i] == '-' else IsHexDigit(s[i])
              {
                if i < 8 { assert s[i] == s[..8][i]; }
                else if 9 <= i < 13 { assert s[i] == s1[..4][i - 9]; }
                else if 14 <= i < 18 { assert s[i] == s2[..4][i - 14]; }
                else if 19 <= i < 23 { assert s[i] == s3[..4][i - 19]; }
                else if 24 <= i { assert s[i] == s4[i - 24]; }
              }
            }
          }
        }
      }
    }
  }

  /** `isUuid` accepts exactly the present strings laid out as 8-4-4-4-12
      hexadecimal groups, in either case; absent and empty values are rejected. */
  lemma IsUuidIffLayout(v: Option<string>)
    ensures IsUuid(v) <==> v.Some? && Layout(v.value)
  {
    if v.Some? {
      MatchIffLayout(v.value);
    }
  }

  /** A hexadecimal MD5 digest: 32 lowercase hexadecimal characters. */
  type Digest = s: string | |s| == 32 && AllLowerHex(s)
    witness "00000000000000000000000000000000"

  /** The digest laid out as 8-4-4-4-12, as the importer does for derived event ids. */
  function FormatDigest(h: Digest): (u: string)
    ensures Layout(u)
  {
    var u := h[0..8] + "-" + h[8..12] + "-" + h[12..16] + "-" + h[16..20] + "-" + h[20..32];
    assert forall i :: 0 <= i < 8 ==> u[i] == h[i];
    assert forall i :: 9 <= i < 13 ==> u[i] == h[i - 1];
    assert forall i :: 14 <= i < 18 ==> u[i] == h[i - 2];
    assert forall i :: 19 <= i < 23 ==> u[i] == h[i - 3];
    assert forall i :: 24 <= i < 36 ==> u[i] == h[i - 4];
    u
  }

  /** Drops the four hyphens of a laid-out string. */
  function Unformat(u: string): (h: string)
    requires |u| == 36
    ensures |h| == 32
  {
    u[0..8] + u[9..13] + u[14..18] + u[19..23] + u[24..36]
  }

  /** Laying a digest out loses nothing: removing the hyphens gives it back,
      so distinct digests give distinct ids. */
  lemma FormatDigestRoundTrip(h: Digest)
    ensures Unformat(FormatDigest(h)) == h
  {
    var u := FormatDigest(h);
    var r := Unformat(u);
    forall i | 0 <= i < 32 ensures r[i] == h[i] {
      if i < 8 { assert r[i] == u[i]; }
      else if i < 12 { assert r[i] == u[i + 1]; }
      else if i < 16 { assert r[i] == u[i + 2]; }
      else if i < 20 { assert r[i] == u[i + 3]; }
      else { assert r[i] == u[i + 4]; }
    }
  }

  /** A laid-out digest always passes `isUuid`. */
  lemma FormattedDigestIsUuid(h: Digest)
    ensures IsUuid(Some(FormatDigest(h)))
  {
    IsUuidIffLayout(Some(FormatDigest(h)));
  }

  /** The layout does not set the version and variant nibbles of RFC 4122
      section 4.3: the version position (14) and the variant position (19)
      carry digest digits 12 and 16 unchanged, so a digest whose digit 12 is
      not '3' yields an id that is not a name-based UUID. */
  lemma FormattedDigestNotVersioned(h: Digest)
    ensures FormatDigest(h)[14] == h[12] && FormatDigest(h)[19] == h[16]
  {
    FormatDigestRoundTrip(h);
    var u := FormatDigest(h);
    assert Unformat(u)[12] == u[14] && Unformat(u)[16] == u[19];
  }

  /** A value of `Math.random() * 16 | 0`. */
  type Nibble = n: int | 0 <= n < 16

  /** `n.toString(16)` for one nibble. */
  function HexChar(n: Nibble): (c: char)
    ensures IsLowerHexDigit(c)
  {
    "0123456789abcdef"[n]
  }

  /** `r & 0x3 | 0x8`: the RFC 4122 variant bits over two random bits. */
  function VariantNibble(r: Nibble): (v: Nibble)
    ensures 8 <= v < 12
    ensures v % 4 == r % 4
  {
    ((r as bv8 & 3) | 8) as int
  }

  /** The replacement `replace(/[xy]/g, ...)` makes for template character c
      when the random draw is r: 'x' becomes r, 'y' its variant form, and
      every other character stays. */
  function FillChar(c: char, r: Nibble): char {
    if c == 'x' then HexChar(r)
    else if c == 'y' then HexChar(VariantNibble(r))
    else c
  }

  /** The template with one random draw per position; draws under fixed
      characters go unused. */
  function FillTemplate(t: string, rs: seq<Nibble>): (u: string)
    requires |rs| == |t|
    ensures |u| == |t|
    ensures forall i :: 0 <= i < |t| && t[i] != 'x' && t[i] != 'y' ==> u[i] == t[i]
    ensures forall i :: 0 <= i < |t| && (t[i] == 'x' || t[i] == 'y') ==> IsLowerHexDigit(u[i])
    ensures forall i :: 0 <= i < |t| && t[i] == 'y' ==> u[i] in "89ab"
  {
    seq(|t|, i requires 0 <= i < |t| => FillChar(t[i], rs[i]))
  }

  /** Character i of the event form's fallback template. */
  function TemplateChar(i: nat): char {
    if IsHyphenPosition(i) then '-' else if i == 14 then '4' else if i == 19 then 'y' else 'x'
  }

  /** The fallback template of the event form. */
  const V4Template: string := "xxxxxxxx-xxxx-4xxx-yxxx-xxxxxxxxxxxx"

  /** The template, position by position. */
  lemma V4TemplateChars()
    ensures |V4Template| == 36
    ensures forall i :: 0 <= i < 36 ==> V4Template[i] == TemplateChar(i)
  {
  }

  /** The fallback id built from the random draws. */
  function FallbackUuid(rs: seq<Nibble>): (u: string)
    requires |rs| == 36
    ensures Layout(u)
    ensures u[14] == '4'
    ensures u[19] in "89ab"
    ensures forall i :: 0 <= i < 36 && !IsHyphenPosition(i) ==> IsLowerHexDigit(u[i])
  {
    V4TemplateChars();
    FillTemplate(V4Template, rs)
  }
}
